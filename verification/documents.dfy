/** Portable metadata documents, their validation, and their leaf paths. */
module Documents {
  import opened Common

  type Origin = string

  /** JSON values. A number has a value and a spelling: `1`, `1.0` and `1e0` are encoded
      differently, and so are `0.0` and `-0.0`. */
  datatype Json =
    | Null
    | Bool(b: bool)
    | Num(value: real, written: string)
    | Str(s: string)
    | Arr(items: seq<Json>)
    | Obj(fields: map<string, Json>)

  datatype State = Trashed | Restored | Purged
  datatype Entry = Entry(generation: int, revision: int, state: State)
  datatype Lifecycle = Lifecycle(thread: Option<Entry>, nodes: map<Origin, Entry>, relations: map<Origin, Entry>)

  /** The value of a leaf. File references are a set: documents list them sorted and
      without repetition. */
  datatype Leaf = Value(json: Json) | FileSet(files: set<string>) | Life(entries: Lifecycle)
  type Fields = map<string, Leaf>

  datatype Format = V1 | V2
  datatype Section = Nodes | Relations
  datatype Document = Document(format: Format, thread: Fields, nodes: map<Origin, Fields>,
                               relations: map<Origin, Fields>, whiteboard: map<Origin, Leaf>,
                               lifecycle: Option<Lifecycle>)

  const EMPTY := Document(V1, map[], map[], map[], map[], None)

  function Items(d: Document, s: Section): map<Origin, Fields> {
    if s.Nodes? then d.nodes else d.relations
  }

  function Entries(l: Lifecycle, s: Section): map<Origin, Entry> {
    if s.Nodes? then l.nodes else l.relations
  }

  // ------------------------------------------------------ equality in Python

  /** One representative of the values Python's `==` does not tell apart: numbers are
      compared by value, truth values are the numbers 0 and 1, lists and dictionaries are
      compared entry by entry. */
  function Canon(j: Json): Json {
    match j
    case Bool(b) => Num(if b then 1.0 else 0.0, "")
    case Num(value, _) => Num(value, "")
    case Arr(items) => Arr(seq(|items|, i requires 0 <= i < |items| => Canon(items[i])))
    case Obj(fields) => Obj(map k | k in fields :: Canon(fields[k]))
    case _ => j
  }

  function CanonLeaf(leaf: Leaf): Leaf { if leaf.Value? then Value(Canon(leaf.json)) else leaf }

  /** `==` on leaves. */
  predicate Alike(a: Leaf, b: Leaf) { CanonLeaf(a) == CanonLeaf(b) }

  function CanonFields(f: map<string, Leaf>): map<string, Leaf> { map k | k in f :: CanonLeaf(f[k]) }

  function CanonItems(items: map<Origin, Fields>): map<Origin, Fields> { map o | o in items :: CanonFields(items[o]) }

  function CanonDocument(d: Document): Document {
    d.(thread := CanonFields(d.thread), nodes := CanonItems(d.nodes), relations := CanonItems(d.relations),
       whiteboard := CanonFields(d.whiteboard))
  }

  /** `==` on documents. */
  predicate AlikeDocuments(d: Document, e: Document) { CanonDocument(d) == CanonDocument(e) }

  // -------------------------------------------------------------- validation

  const STATUSES := {"idea", "active", "paused", "done", "archived"}
  const NODE_STATUSES :=
    {"idea", "candidate", "proposed", "confirmed", "active", "ready", "assigned", "in_progress", "waiting", "blocked",
     "delivered", "review", "unverified", "verified", "accepted", "rejected", "rework", "superseded", "done", "paused",
     "archived"}
  const ACTOR_TYPES := {"human", "grok", "claude", "codex", "chatgpt", "gnom-hub-v1", "local-assistant", "system"}
  const ENTRY_TYPES := {"note", "task", "claimed", "progress", "result", "decision", "problem", "question", "system"}
  const THREAD_KEYS := {"title", "description", "status", "notes", "prompts", "files", "project_origin"}
  const NODE_KEYS := {"kind", "title", "status", "details", "metadata"}
  const RELATION_KEYS := {"source", "target", "kind"}
  const RELATION_KINDS := {"contains", "depends_on", "related_to", "blocks", "references"}
  const ENTRY_KEYS := {"actor", "actor_type", "created_at", "entry_type", "content", "metadata"}
  const LOCAL_BINDINGS := {"thread_id", "project_id", "sync_origin"}
  const MAX_TEXT: nat := 100000
  const MAX_ITEMS: nat := 2000
  const MAX_ORIGIN: nat := 180

  predicate OriginChar(c: char) {
    'A' <= c <= 'Z' || 'a' <= c <= 'z' || '0' <= c <= '9' || c == '_' || c == ':' || c == '-'
  }

  predicate PortableOrigin(o: Origin) {
    1 <= |o| <= MAX_ORIGIN && forall i :: 0 <= i < |o| ==> OriginChar(o[i])
  }

  predicate Space(c: char) { c == ' ' || '\t' <= c <= '\r' || '\U{1c}' <= c <= '\U{1f}' }

  predicate Text(leaf: Leaf) { leaf.Value? && leaf.json.Str? }

  predicate OneOf(leaf: Leaf, words: set<string>) { Text(leaf) && leaf.json.s in words }

  predicate Title(leaf: Leaf) { Text(leaf) && exists i :: 0 <= i < |leaf.json.s| && !Space(leaf.json.s[i]) }

  predicate Dict(leaf: Leaf, reserved: set<string>) {
    leaf.Value? && leaf.json.Obj? && forall k :: k in reserved ==> k !in leaf.json.fields
  }

  predicate Dicts(leaf: Leaf) {
    leaf.Value? && leaf.json.Arr? && forall i :: 0 <= i < |leaf.json.items| ==> leaf.json.items[i].Obj?
  }

  predicate ThreadOk(t: Fields) {
    && t.Keys <= THREAD_KEYS
    && (forall k :: k in t && k in {"title", "description", "notes"} ==> Text(t[k]) && |t[k].json.s| <= MAX_TEXT)
    && ("title" in t ==> Title(t["title"]))
    && ("status" in t ==> OneOf(t["status"], STATUSES))
    && ("prompts" in t ==> Dicts(t["prompts"]))
    && ("files" in t ==> t["files"].FileSet?)
    && ("project_origin" in t ==> t["project_origin"].Value?)
  }

  predicate NodeOk(item: Fields) {
    && NODE_KEYS <= item.Keys <= NODE_KEYS + {"project_origin"}
    && OneOf(item["kind"], {"task", "project"}) && OneOf(item["status"], NODE_STATUSES)
    && Title(item["title"]) && Text(item["details"]) && Dict(item["metadata"], LOCAL_BINDINGS)
    && ("project_origin" in item ==> item["project_origin"].Value?)
  }

  predicate RelationOk(nodes: map<Origin, Fields>, item: Fields) {
    && item.Keys == RELATION_KEYS && OneOf(item["kind"], RELATION_KINDS)
    && OneOf(item["source"], nodes.Keys) && OneOf(item["target"], nodes.Keys)
  }

  predicate EntryOk(leaf: Leaf) {
    leaf.Value? && leaf.json.Obj? &&
    var e := leaf.json.fields;
    && e.Keys == ENTRY_KEYS
    && e["actor_type"].Str? && e["actor_type"].s in ACTOR_TYPES && e["entry_type"].Str?
        && e["entry_type"].s in ENTRY_TYPES
    && e["actor"].Str? && e["created_at"].Str? && e["content"].Str?
    && e["metadata"].Obj? && "sync_origin" !in e["metadata"].fields
  }

  /** The project an item says it belongs to; a JSON null counts as none. */
  predicate OwnerOk(nodes: map<Origin, Fields>, item: Fields) {
    "project_origin" in item && item["project_origin"] != Value(Null) ==>
      && OneOf(item["project_origin"], nodes.Keys)
      && var owner := nodes[item["project_origin"].json.s];
         "kind" in owner && owner["kind"] == Value(Str("project"))
  }

  predicate CollectionOk<T>(items: map<Origin, T>) {
    |items| <= MAX_ITEMS && forall o :: o in items ==> PortableOrigin(o)
  }

  predicate EntryValid(e: Entry) { e.generation >= 1 && e.revision >= 1 }

  predicate LifecycleOk(d: Document, l: Lifecycle) {
    && l.nodes.Keys <= d.nodes.Keys && l.relations.Keys <= d.relations.Keys
    && (l.thread.Some? ==> EntryValid(l.thread.value))
    && (forall o :: o in l.nodes ==> EntryValid(l.nodes[o]))
    && (forall o :: o in l.relations ==> EntryValid(l.relations[o]))
  }

  /** What `validate_document` checks of the structure of a document. */
  predicate Structured(d: Document) {
    && (d.format.V2? <==> d.lifecycle.Some?)
    && ThreadOk(d.thread)
    && CollectionOk(d.nodes) && CollectionOk(d.relations) && CollectionOk(d.whiteboard)
    && (forall o :: o in d.nodes ==> NodeOk(d.nodes[o]))
    && (forall o :: o in d.relations ==> RelationOk(d.nodes, d.relations[o]))
    && (forall o :: o in d.whiteboard ==> EntryOk(d.whiteboard[o]))
    && OwnerOk(d.nodes, d.thread)
    && (forall o :: o in d.nodes ==> OwnerOk(d.nodes, d.nodes[o]))
    && (d.lifecycle.Some? ==> LifecycleOk(d, d.lifecycle.value))
  }

  /** `validate_document` as a whole: it also bounds the encoded size, screens for secrets
      and wants portable file references, which stay parameters here. */
  type Validator = Document -> bool

  predicate Checked(accepts: Validator, d: Document) { accepts(d) }

  ghost predicate Validates(accepts: Validator) {
    forall d {:trigger Checked(accepts, d)} :: Checked(accepts, d) ==> Structured(d)
  }

  lemma AcceptedIsStructured(accepts: Validator, d: Document)
    requires Validates(accepts) && accepts(d)
    ensures Structured(d)
  {
    assert Checked(accepts, d);
  }

  // -------------------------------------------------------------- leaf paths

  datatype FieldPath =
    | LifecyclePath
    | Thread(key: string)
    | Item(section: Section, origin: Origin, field: string)
    | Board(entry: Origin)

  const FILES := Thread("files")

  function SectionName(s: Section): string { if s.Nodes? then "nodes" else "relations" }

  /** The string the program uses as the key of a leaf. */
  function Render(p: FieldPath): string {
    match p
    case LifecyclePath => "lifecycle"
    case Thread(k) => "thread/" + k
    case Item(s, o, k) => SectionName(s) + "/" + o + "/" + k
    case Board(o) => "whiteboard/" + o
  }

  /** `split('/')`. */
  function Split(s: string): (parts: seq<string>)
    ensures |parts| >= 1
  {
    if s == [] then [[]]
    else
      var rest := Split(s[1..]);
      if s[0] == '/' then [[]] + rest else [[s[0]] + rest[0]] + rest[1..]
  }

  /** How a key is taken apart again: parts beyond those named are ignored. */
  function Parse(s: string): Option<FieldPath> {
    var parts := Split(s);
    if parts[0] == "lifecycle" then Some(LifecyclePath)
    else if |parts| < 2 then None
    else if parts[0] == "thread" then Some(Thread(parts[1]))
    else if parts[0] == "whiteboard" then Some(Board(parts[1]))
    else if |parts| < 3 then None
    else if parts[0] == "nodes" then Some(Item(Nodes, parts[1], parts[2]))
    else if parts[0] == "relations" then Some(Item(Relations, parts[1], parts[2]))
    else None
  }

  predicate SlashFree(s: string) { '/' !in s }

  predicate Separable(p: FieldPath) {
    match p
    case LifecyclePath => true
    case Thread(k) => SlashFree(k)
    case Item(_, o, k) => SlashFree(o) && SlashFree(k)
    case Board(o) => SlashFree(o)
  }

  lemma {:induction false} SplitPlain(s: string)
    requires SlashFree(s)
    ensures Split(s) == [s]
    decreases |s|
  {
    if s != [] {
      SplitPlain(s[1..]);
      assert [s[0]] + s[1..] == s;
    }
  }

  lemma {:induction false} SplitHead(s: string, t: string)
    requires SlashFree(s)
    ensures Split(s + "/" + t) == [s] + Split(t)
    decreases |s|
  {
    var whole := s + "/" + t;
    if s == [] {
      assert whole[1..] == t;
    } else {
      assert whole[1..] == s[1..] + "/" + t;
      SplitHead(s[1..], t);
      assert [s[0]] + s[1..] == s;
    }
  }

  lemma {:induction false} SplitPieces(s: string)
    ensures forall i :: 0 <= i < |Split(s)| ==> SlashFree(Split(s)[i])
    decreases |s|
  {
    if s != [] {
      SplitPieces(s[1..]);
    }
  }

  /** A rendered path is taken apart into the same path exactly if no origin or key in
      it contains the separator. */
  lemma ParseRender(p: FieldPath)
    ensures Parse(Render(p)) == Some(p) <==> Separable(p)
  {
    match p
    case LifecyclePath => SplitPlain("lifecycle");
    case Thread(k) =>
      assert Render(p) == "thread" + "/" + k;
      SplitHead("thread", k);
      SplitPieces(k);
      if SlashFree(k) { SplitPlain(k); }
    case Board(o) =>
      assert Render(p) == "whiteboard" + "/" + o;
      SplitHead("whiteboard", o);
      SplitPieces(o);
      if SlashFree(o) { SplitPlain(o); }
    case Item(s, o, k) =>
      ParseItem(s, o, k);
  }

  lemma ParseItem(s: Section, o: Origin, k: string)
    ensures Parse(Render(Item(s, o, k))) == Some(Item(s, o, k)) <==> SlashFree(o) && SlashFree(k)
  {
    var name, whole := SectionName(s), Render(Item(s, o, k));
    assert whole == name + "/" + (o + "/" + k);
    SplitHead(name, o + "/" + k);
    SplitPieces(o + "/" + k);
    if SlashFree(o) {
      SplitHead(o, k);
      SplitPieces(k);
      if SlashFree(k) { SplitPlain(k); }
    }
  }

  /** Keys of leaves never collide. */
  lemma RenderInjective(p: FieldPath, q: FieldPath)
    requires Separable(p) && Separable(q) && Render(p) == Render(q)
    ensures p == q
  {
    ParseRender(p);
    ParseRender(q);
  }

  // ------------------------------------------------------ flatten, unflatten

  type Flat = map<FieldPath, Leaf>

  function Lookup<K, V>(m: map<K, V>, k: K): Option<V> { if k in m then Some(m[k]) else None }

  function At(d: Document, p: FieldPath): Option<Leaf> {
    match p
    case LifecyclePath => if d.lifecycle.Some? then Some(Life(d.lifecycle.value)) else None
    case Thread(k) => Lookup(d.thread, k)
    case Item(s, o, k) => if o in Items(d, s) then Lookup(Items(d, s)[o], k) else None
    case Board(o) => Lookup(d.whiteboard, o)
  }

  function ItemPaths(d: Document, s: Section): set<FieldPath> {
    set o, k | o in Items(d, s) && k in Items(d, s)[o] :: Item(s, o, k)
  }

  function Domain(d: Document): (paths: set<FieldPath>)
    ensures forall p :: p in paths <==> At(d, p).Some?
  {
    (if d.lifecycle.Some? then {LifecyclePath} else {}) + (set k | k in d.thread :: Thread(k))
    + ItemPaths(d, Nodes) + ItemPaths(d, Relations) + (set o | o in d.whiteboard :: Board(o))
  }

  function Leaves(d: Document): (f: Flat)
    ensures forall p: FieldPath :: Lookup(f, p) == At(d, p)
  {
    map p | p in Domain(d) :: At(d, p).value
  }

  /** Only the lifecycle leaf is a lifecycle. */
  predicate Typed(f: Flat) { LifecyclePath in f ==> f[LifecyclePath].Life? }

  function Owners(f: Flat, s: Section): set<Origin> {
    set p | p in f && p.Item? && p.section == s :: p.origin
  }

  function FieldNames(f: Flat, s: Section, o: Origin): (names: set<string>)
    ensures forall k :: k in names <==> Item(s, o, k) in f
  {
    var names := set p | p in f && p.Item? && p.section == s && p.origin == o :: p.field;
    assert forall k :: Item(s, o, k) in f ==> Item(s, o, k).field in names;
    names
  }

  function Gathered(f: Flat, s: Section): map<Origin, Fields> {
    map o | o in Owners(f, s) :: map k | k in FieldNames(f, s, o) :: f[Item(s, o, k)]
  }

  function Assembled(f: Flat): Document
    requires Typed(f)
  {
    Document(if LifecyclePath in f then V2 else V1,
             map p | p in f && p.Thread? :: p.key := f[p],
             Gathered(f, Nodes), Gathered(f, Relations),
             map p | p in f && p.Board? :: p.entry := f[p],
             if LifecyclePath in f then Some(f[LifecyclePath].entries) else None)
  }

  /** Every item has a field, and the format says whether there is a lifecycle. */
  predicate Tidy(d: Document) {
    && (d.format.V2? <==> d.lifecycle.Some?)
    && (forall s, o :: o in Items(d, s) ==> Items(d, s)[o] != map[])
  }

  lemma ValidIsTidy(d: Document)
    requires Structured(d)
    ensures Tidy(d)
  {
    forall s, o | o in Items(d, s) ensures Items(d, s)[o] != map[] {
      if s.Nodes? {
        assert NodeOk(d.nodes[o]) && "kind" in d.nodes[o];
      } else {
        assert RelationOk(d.nodes, d.relations[o]) && "kind" in d.relations[o];
      }
    }
  }

  lemma GatheredAt(f: Flat, s: Section, o: Origin)
    ensures o in Gathered(f, s) <==> exists k :: Item(s, o, k) in f
    ensures o in Gathered(f, s) ==> Gathered(f, s)[o] != map[]
    ensures o in Gathered(f, s) ==> forall k :: Lookup(Gathered(f, s)[o], k) == Lookup(f, Item(s, o, k))
  {
    if o in Owners(f, s) {
      var p :| p in f && p.Item? && p.section == s && p.origin == o;
      assert p == Item(s, o, p.field) && p.field in Gathered(f, s)[o];
    }
    forall k | Item(s, o, k) in f ensures o in Owners(f, s) {
      assert Item(s, o, k).origin == o;
    }
  }

  lemma AssembledAt(f: Flat, p: FieldPath)
    requires Typed(f)
    ensures At(Assembled(f), p) == Lookup(f, p)
  {
    match p
    case Item(s, o, k) => GatheredAt(f, s, o);
    case _ =>
  }

  lemma AssembledTidy(f: Flat)
    requires Typed(f)
    ensures Tidy(Assembled(f))
  {
    var d := Assembled(f);
    forall s, o | o in Items(d, s) ensures Items(d, s)[o] != map[] {
      GatheredAt(f, s, o);
    }
  }

  lemma SameFields(a: Fields, b: Fields)
    requires forall k :: Lookup(a, k) == Lookup(b, k)
    ensures a == b
  {
    assert forall k :: k in a <==> Lookup(a, k).Some?;
    assert forall k :: k in b <==> Lookup(b, k).Some?;
    assert forall k :: k in a ==> a[k] == Lookup(a, k).value;
  }

  lemma SameItems(d: Document, e: Document, s: Section)
    requires Tidy(d) && Tidy(e) && forall p :: At(d, p) == At(e, p)
    ensures Items(d, s) == Items(e, s)
  {
    forall o
      ensures o in Items(d, s) <==> o in Items(e, s)
      ensures o in Items(d, s) && o in Items(e, s) ==> Items(d, s)[o] == Items(e, s)[o]
    {
      if o in Items(d, s) {
        var k :| k in Items(d, s)[o];
        assert At(d, Item(s, o, k)) == At(e, Item(s, o, k));
      }
      if o in Items(e, s) {
        var k :| k in Items(e, s)[o];
        assert At(d, Item(s, o, k)) == At(e, Item(s, o, k));
      }
      if o in Items(d, s) && o in Items(e, s) {
        forall k ensures Lookup(Items(d, s)[o], k) == Lookup(Items(e, s)[o], k) {
          assert At(d, Item(s, o, k)) == At(e, Item(s, o, k));
        }
        SameFields(Items(d, s)[o], Items(e, s)[o]);
      }
    }
  }

  /** A tidy document is determined by its leaves. */
  lemma LeavesDetermine(d: Document, e: Document)
    requires Tidy(d) && Tidy(e) && forall p :: At(d, p) == At(e, p)
    ensures d == e
  {
    SameItems(d, e, Nodes);
    SameItems(d, e, Relations);
    assert At(d, LifecyclePath) == At(e, LifecyclePath);
    forall k ensures Lookup(d.thread, k) == Lookup(e.thread, k) { assert At(d, Thread(k)) == At(e, Thread(k)); }
    SameFields(d.thread, e.thread);
    forall o ensures Lookup(d.whiteboard, o) == Lookup(e.whiteboard, o) { assert At(d, Board(o)) == At(e, Board(o)); }
    SameFields(d.whiteboard, e.whiteboard);
  }

  /** A document comes back from its leaves, format tag included, exactly if it is tidy. */
  lemma AssembleLeaves(d: Document)
    ensures Typed(Leaves(d)) && (Assembled(Leaves(d)) == d <==> Tidy(d))
  {
    assert Lookup(Leaves(d), LifecyclePath) == At(d, LifecyclePath);
    AssembledTidy(Leaves(d));
    if Tidy(d) {
      forall p ensures At(Assembled(Leaves(d)), p) == At(d, p) { AssembledAt(Leaves(d), p); }
      LeavesDetermine(Assembled(Leaves(d)), d);
    }
  }

  /** Leaves come back from the document built of them. */
  lemma LeavesAssemble(f: Flat)
    requires Typed(f)
    ensures Leaves(Assembled(f)) == f
  {
    var g := Leaves(Assembled(f));
    forall p ensures Lookup(g, p) == Lookup(f, p) { AssembledAt(f, p); }
    assert forall p :: p in g <==> Lookup(g, p).Some?;
    assert forall p :: p in f <==> Lookup(f, p).Some?;
    assert forall p :: p in f ==> f[p] == Lookup(f, p).value && g[p] == Lookup(g, p).value;
  }

  /** The two undo each other on every document the program lets in, and no two of its
      leaves have the same key. */
  lemma ValidRoundTrip(d: Document)
    requires Structured(d)
    ensures Typed(Leaves(d)) && Assembled(Leaves(d)) == d
    ensures forall p :: p in Leaves(d) ==> Separable(p)
    ensures forall p, q :: p in Leaves(d) && q in Leaves(d) && Render(p) == Render(q) ==> p == q
  {
    ValidIsTidy(d);
    AssembleLeaves(d);
    StructuredNamed(d);
    forall p | p in Leaves(d) ensures Separable(p) { NamedSeparable(d, p); }
    forall p, q | p in Leaves(d) && q in Leaves(d) && Render(p) == Render(q) ensures p == q {
      RenderInjective(p, q);
    }
  }

  lemma KnownKeysPlain(k: string)
    requires k in THREAD_KEYS + NODE_KEYS + {"project_origin"} + RELATION_KEYS
    ensures SlashFree(k)
  {
  }

  /** What the validation says of the names in a document. */
  predicate Named(d: Document) {
    && d.thread.Keys <= THREAD_KEYS
    && (forall o :: o in d.nodes ==> PortableOrigin(o) && d.nodes[o].Keys <= NODE_KEYS + {"project_origin"})
    && (forall o :: o in d.relations ==> PortableOrigin(o) && d.relations[o].Keys <= RELATION_KEYS)
    && (forall o :: o in d.whiteboard ==> PortableOrigin(o))
  }

  lemma StructuredNamed(d: Document)
    requires Structured(d)
    ensures Named(d)
  {
    forall o | o in d.nodes ensures d.nodes[o].Keys <= NODE_KEYS + {"project_origin"} { assert NodeOk(d.nodes[o]); }
    forall o | o in d.relations ensures d.relations[o].Keys <= RELATION_KEYS {
      assert RelationOk(d.nodes, d.relations[o]);
    }
  }

  lemma PortablePlain(o: Origin)
    requires PortableOrigin(o)
    ensures SlashFree(o)
  {
  }

  lemma NamedSeparable(d: Document, p: FieldPath)
    requires Named(d) && p in Leaves(d)
    ensures Separable(p)
  {
    assert Lookup(Leaves(d), p) == At(d, p);
    match p
    case LifecyclePath =>
    case Thread(k) => KnownKeysPlain(k);
    case Board(o) => PortablePlain(o);
    case Item(s, o, k) =>
      PortablePlain(o);
      assert k in Items(d, s)[o].Keys;
      KnownKeysPlain(k);
  }

  // ----------------------------------------------- equal documents, in Python

  lemma CanonAt(d: Document, p: FieldPath)
    ensures var (a, b) := (At(CanonDocument(d), p), At(d, p)); a == if b.Some? then Some(CanonLeaf(b.value)) else None
  {
  }

  lemma CanonTidy(d: Document)
    requires Tidy(d)
    ensures Tidy(CanonDocument(d))
  {
    forall s, o | o in Items(CanonDocument(d), s) ensures Items(CanonDocument(d), s)[o] != map[] {
      var k :| k in Items(d, s)[o];
      assert k in Items(CanonDocument(d), s)[o];
    }
  }

  /** The same leaf to Python, or absent on both sides. */
  predicate AlikeLeaf(a: Option<Leaf>, b: Option<Leaf>) {
    if a.None? then b.None? else b.Some? && Alike(a.value, b.value)
  }

  lemma AlikeAt(d: Document, e: Document, p: FieldPath)
    requires AlikeDocuments(d, e)
    ensures AlikeLeaf(At(d, p), At(e, p))
  {
    CanonAt(d, p);
    CanonAt(e, p);
  }

  /** Tidy documents with alike leaves are equal to Python. */
  lemma AlikeLeavesAlike(d: Document, e: Document)
    requires Tidy(d) && Tidy(e) && forall p :: AlikeLeaf(At(d, p), At(e, p))
    ensures AlikeDocuments(d, e)
  {
    CanonTidy(d);
    CanonTidy(e);
    forall p ensures At(CanonDocument(d), p) == At(CanonDocument(e), p) {
      CanonAt(d, p);
      CanonAt(e, p);
      assert AlikeLeaf(At(d, p), At(e, p));
    }
    LeavesDetermine(CanonDocument(d), CanonDocument(e));
  }

  // ---------------------------------------------------------- the two loops

  /** One turn of `_unflatten`: `setdefault` creates the item the field belongs to. */
  function Put(d: Document, p: FieldPath, leaf: Leaf): Document
    requires p.LifecyclePath? ==> leaf.Life?
  {
    match p
    case LifecyclePath => d.(format := V2, lifecycle := Some(leaf.entries))
    case Thread(k) => d.(thread := d.thread[k := leaf])
    case Board(o) => d.(whiteboard := d.whiteboard[o := leaf])
    case Item(s, o, k) =>
      var item := if o in Items(d, s) then Items(d, s)[o] else map[];
      if s.Nodes? then d.(nodes := d.nodes[o := item[k := leaf]])
      else d.(relations := d.relations[o := item[k := leaf]])
  }

  lemma PutTidy(d: Document, p: FieldPath, leaf: Leaf)
    requires Tidy(d) && (p.LifecyclePath? ==> leaf.Life?)
    ensures Tidy(Put(d, p, leaf))
  {
    var e := Put(d, p, leaf);
    forall s, o | o in Items(e, s) ensures Items(e, s)[o] != map[] {
      if p.Item? && p.section == s && p.origin == o {
        assert p.field in Items(e, s)[o];
      } else {
        assert o in Items(d, s) && Items(e, s)[o] == Items(d, s)[o];
      }
    }
  }

  lemma PutAt(d: Document, p: FieldPath, leaf: Leaf, q: FieldPath)
    requires p.LifecyclePath? ==> leaf.Life?
    ensures At(Put(d, p, leaf), q) == if q == p then Some(leaf) else At(d, q)
  {
  }

  method Unflatten(f: Flat) returns (d: Document)
    requires Typed(f)
    ensures d == Assembled(f)
  {
    d := EMPTY;
    var todo := f.Keys;
    while todo != {}
      invariant todo <= f.Keys && Tidy(d)
      invariant forall p :: At(d, p) == if p in todo then None else Lookup(f, p)
      decreases |todo|
    {
      var p :| p in todo;
      PutTidy(d, p, f[p]);
      forall q ensures At(Put(d, p, f[p]), q) == if q == p then Some(f[p]) else At(d, q) { PutAt(d, p, f[p], q); }
      d := Put(d, p, f[p]);
      todo := todo - {p};
    }
    AssembledTidy(f);
    forall p ensures At(d, p) == At(Assembled(f), p) { AssembledAt(f, p); }
    LeavesDetermine(d, Assembled(f));
  }

  /** The inner loop of `_flatten` over the fields of one item. */
  method FlattenFields(f: Flat, s: Section, o: Origin, item: Fields) returns (g: Flat)
    ensures forall p: FieldPath :: Lookup(g, p) ==
              if p.Item? && p.section == s && p.origin == o && p.field in item then Some(item[p.field])
                  else Lookup(f, p)
  {
    g := f;
    var todo := item.Keys;
    while todo != {}
      invariant todo <= item.Keys
      invariant forall p: FieldPath :: Lookup(g, p) ==
                  if p.Item? && p.section == s && p.origin == o && p.field in item.Keys - todo then Some(item[p.field])
                  else Lookup(f, p)
      decreases |todo|
    {
      var k :| k in todo;
      g := g[Item(s, o, k) := item[k]];
      todo := todo - {k};
    }
  }

  method FlattenItems(f: Flat, d: Document, s: Section) returns (g: Flat)
    requires forall p: FieldPath :: p.Item? && p.section == s ==> p !in f
    ensures forall p: FieldPath :: Lookup(g, p) == if p.Item? && p.section == s then At(d, p) else Lookup(f, p)
  {
    g := f;
    var items := Items(d, s);
    var todo := items.Keys;
    while todo != {}
      invariant todo <= items.Keys
      invariant forall p: FieldPath :: Lookup(g, p) ==
                  if p.Item? && p.section == s && p.origin !in todo then At(d, p) else Lookup(f, p)
      decreases |todo|
    {
      var o :| o in todo;
      g := FlattenFields(g, s, o, items[o]);
      todo := todo - {o};
    }
  }

  method FlattenThread(f: Flat, d: Document) returns (g: Flat)
    requires forall p: FieldPath :: p.Thread? ==> p !in f
    ensures forall p: FieldPath :: Lookup(g, p) == if p.Thread? then At(d, p) else Lookup(f, p)
  {
    g := f;
    var todo := d.thread.Keys;
    while todo != {}
      invariant todo <= d.thread.Keys
      invariant forall p: FieldPath :: Lookup(g, p) == if p.Thread? && p.key !in todo then At(d, p) else Lookup(f, p)
      decreases |todo|
    {
      var k :| k in todo;
      g := g[Thread(k) := d.thread[k]];
      todo := todo - {k};
    }
  }

  method FlattenBoard(f: Flat, d: Document) returns (g: Flat)
    requires forall p: FieldPath :: p.Board? ==> p !in f
    ensures forall p: FieldPath :: Lookup(g, p) == if p.Board? then At(d, p) else Lookup(f, p)
  {
    g := f;
    var todo := d.whiteboard.Keys;
    while todo != {}
      invariant todo <= d.whiteboard.Keys
      invariant forall p: FieldPath :: Lookup(g, p) == if p.Board? && p.entry !in todo then At(d, p) else Lookup(f, p)
      decreases |todo|
    {
      var o :| o in todo;
      g := g[Board(o) := d.whiteboard[o]];
      todo := todo - {o};
    }
  }

  lemma Members(f: Flat)
    ensures forall p: FieldPath :: p in f <==> Lookup(f, p).Some?
  {
  }

  method Flatten(d: Document) returns (f: Flat)
    ensures f == Leaves(d)
  {
    f := if d.lifecycle.Some? then map[LifecyclePath := Life(d.lifecycle.value)] else map[];
    f := FlattenThread(f, d);
    Members(f);
    f := FlattenItems(f, d, Nodes);
    Members(f);
    f := FlattenItems(f, d, Relations);
    Members(f);
    f := FlattenBoard(f, d);
    SameLeaves(f, Leaves(d));
  }

  lemma SameLeaves(f: Flat, g: Flat)
    requires forall p: FieldPath :: Lookup(f, p) == Lookup(g, p)
    ensures f == g
  {
    assert forall p :: p in f <==> Lookup(f, p).Some?;
    assert forall p :: p in g <==> Lookup(g, p).Some?;
    assert forall p :: p in f ==> f[p] == Lookup(f, p).value && g[p] == Lookup(g, p).value;
  }
}
