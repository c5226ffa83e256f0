/** Portable paths and the two implementations of the collision rule: the pairwise
    predicate and the prefix index. They are proved to decide the same thing. */
module Paths {
  import opened Common

  type Segment = string

  /** A path as its '/'-separated segments; "".split('/') is [""]. */
  type Path = p: seq<Segment> | p != [] witness [""]

  datatype FileEntry = FileEntry(path: Path, sha256: Digest, size: nat)

  /** NFC followed by casefold, on one segment. Nothing is assumed of it. */
  type Folding = Segment -> Segment

  /** The '/'-joined text of a prefix, kept as its structure. */
  datatype Prefix = Root | Sub(parent: Prefix, name: Segment)

  function Depth(d: Prefix): nat {
    if d.Root? then 0 else 1 + Depth(d.parent)
  }

  /** The first `n` segments. */
  function Take(p: seq<Segment>, n: nat): (prefix: Prefix)
    requires n <= |p|
    ensures Depth(prefix) == n
  {
    if n == 0 then Root else Sub(Take(p, n - 1), p[n - 1])
  }

  /** The key of the first `n` segments; `JoinedKeysAgree` ties it to joined text. */
  function PrefixKey(fold: Folding, p: seq<Segment>, n: nat): (key: Prefix)
    requires n <= |p|
    ensures Depth(key) == n
  {
    if n == 0 then Root else Sub(PrefixKey(fold, p, n - 1), fold(p[n - 1]))
  }

  lemma {:induction false} TakeEqual(p: seq<Segment>, q: seq<Segment>, n: nat)
    requires n <= |p| && n <= |q|
    ensures Take(p, n) == Take(q, n) <==> p[..n] == q[..n]
    ensures Take(p, n) == Take(q, n) ==> forall fold :: PrefixKey(fold, p, n) == PrefixKey(fold, q, n)
  {
    if n > 0 {
      TakeEqual(p, q, n - 1);
      assert p[..n] == p[..n - 1] + [p[n - 1]] && q[..n] == q[..n - 1] + [q[n - 1]];
      assert p[..n][..n - 1] == p[..n - 1] && q[..n][..n - 1] == q[..n - 1];
    }
  }

  // ------------------------------------------------ keys as the source spells them

  /** The '/'-joined text of a non-empty prefix. */
  function Text(d: Prefix): string
    requires d.Sub?
  {
    if d.parent.Root? then d.name else Text(d.parent) + "/" + d.name
  }

  predicate PlainNames(d: Prefix) {
    d.Sub? ==> '/' !in d.name && PlainNames(d.parent)
  }

  /** What NFC and casefold are taken to do to joined text: act on each segment by
      itself, and never make a '/' out of a segment. */
  ghost predicate ActsPerSegment(whole: string -> string) {
    && (forall a, s :: whole(a + "/" + s) == whole(a) + "/" + whole(s))
    && (forall s :: '/' !in s ==> '/' !in whole(s))
  }

  lemma LastSlash(a: string, s: string, b: string, u: string)
    requires '/' !in s && '/' !in u && a + "/" + s == b + "/" + u
    ensures a == b && s == u
  {
    var t, t' := a + "/" + s, b + "/" + u;
    assert forall i :: |a| < i < |t| ==> t[i] in s;
    assert forall i :: |b| < i < |t'| ==> t'[i] in u;
    assert t[|a|] == '/' && t'[|b|] == '/';
    assert t[..|a|] == a && t'[..|b|] == b && t[|a| + 1..] == s && t'[|b| + 1..] == u;
  }

  lemma SlashMeansDeep(d: Prefix)
    requires d.Sub? && PlainNames(d)
    ensures '/' in Text(d) <==> d.parent.Sub?
  {
    if d.parent.Sub? { assert Text(d)[|Text(d.parent)|] == '/'; }
  }

  lemma {:induction false} TextInjective(d: Prefix, e: Prefix)
    requires d.Sub? && e.Sub? && PlainNames(d) && PlainNames(e) && Text(d) == Text(e)
    ensures d == e
  {
    SlashMeansDeep(d);
    SlashMeansDeep(e);
    if d.parent.Sub? {
      LastSlash(Text(d.parent), d.name, Text(e.parent), e.name);
      TextInjective(d.parent, e.parent);
    }
  }

  lemma {:induction false} FoldedText(whole: string -> string, p: seq<Segment>, n: nat)
    requires ActsPerSegment(whole) && 1 <= n <= |p| && forall s :: s in p ==> '/' !in s
    ensures PlainNames(Take(p, n)) && PlainNames(PrefixKey(whole, p, n))
    ensures whole(Text(Take(p, n))) == Text(PrefixKey(whole, p, n))
  {
    if n == 1 {
      assert Take(p, 1) == Sub(Root, p[0]) && PrefixKey(whole, p, 1) == Sub(Root, whole(p[0]));
    } else {
      FoldedText(whole, p, n - 1);
    }
  }

  /** Looking prefixes up by folded joined text is looking them up by `PrefixKey`. */
  lemma JoinedKeysAgree(whole: string -> string, p: seq<Segment>, n: nat, q: seq<Segment>, m: nat)
    requires ActsPerSegment(whole) && 1 <= n <= |p| && 1 <= m <= |q|
    requires forall s :: s in p || s in q ==> '/' !in s
    ensures whole(Text(Take(p, n))) == whole(Text(Take(q, m))) <==> PrefixKey(whole, p, n) == PrefixKey(whole, q, m)
  {
    FoldedText(whole, p, n);
    FoldedText(whole, q, m);
    if whole(Text(Take(p, n))) == whole(Text(Take(q, m))) {
      TextInjective(PrefixKey(whole, p, n), PrefixKey(whole, q, m));
    }
  }

  // ---------------------------------------------------------- pairwise rule

  predicate ZipClash(fold: Folding, left: seq<Segment>, right: seq<Segment>) {
    if left == [] || right == [] then true
    else if fold(left[0]) != fold(right[0]) then false
    else if left[0] != right[0] then true
    else ZipClash(fold, left[1..], right[1..])
  }

  predicate Collides(fold: Folding, first: Path, second: Path) {
    first != second && ZipClash(fold, first, second)
  }

  /** Two different spellings of one directory or file, `n` segments down. */
  ghost predicate AliasAt(fold: Folding, p: seq<Segment>, q: seq<Segment>, n: nat) {
    && 1 <= n <= |p| && n <= |q|
    && Take(p, n) != Take(q, n) && PrefixKey(fold, p, n) == PrefixKey(fold, q, n)
  }

  ghost predicate Aliases(fold: Folding, p: seq<Segment>, q: seq<Segment>) {
    exists n: nat :: AliasAt(fold, p, q, n)
  }

  /** One path is used as a directory of the other. */
  predicate Nested(p: seq<Segment>, q: seq<Segment>) { p < q || q < p }

  lemma {:induction false} CommonHead(fold: Folding, p: seq<Segment>, q: seq<Segment>, n: nat)
    requires n + 1 <= |p| && n + 1 <= |q|
    ensures p[0] == q[0] ==> (Take(p, n + 1) == Take(q, n + 1) <==> Take(p[1..], n) == Take(q[1..], n))
    ensures p[0] == q[0] ==>
      (PrefixKey(fold, p, n + 1) == PrefixKey(fold, q, n + 1)
       <==> PrefixKey(fold, p[1..], n) == PrefixKey(fold, q[1..], n))
    ensures fold(p[0]) != fold(q[0]) ==> PrefixKey(fold, p, n + 1) != PrefixKey(fold, q, n + 1)
  {
    if n == 0 {
      assert Take(p, 1) == Sub(Root, p[0]) && Take(q, 1) == Sub(Root, q[0]);
      assert PrefixKey(fold, p, 1) == Sub(Root, fold(p[0])) && PrefixKey(fold, q, 1) == Sub(Root, fold(q[0]));
    } else {
      CommonHead(fold, p, q, n - 1);
      assert p[1..][n - 1] == p[n] && q[1..][n - 1] == q[n];
    }
  }

  lemma {:induction false} ZipClashMeaning(fold: Folding, p: seq<Segment>, q: seq<Segment>)
    ensures ZipClash(fold, p, q) <==> p == q || Nested(p, q) || Aliases(fold, p, q)
  {
    if p == [] || q == [] {
      assert p == q || Nested(p, q);
    } else if fold(p[0]) != fold(q[0]) {
      forall n: nat ensures !AliasAt(fold, p, q, n) {
        if 1 <= n <= |p| && n <= |q| { CommonHead(fold, p, q, n - 1); }
      }
    } else if p[0] != q[0] {
      assert Take(p, 1) == Sub(Root, p[0]) && Take(q, 1) == Sub(Root, q[0]);
      assert PrefixKey(fold, p, 1) == Sub(Root, fold(p[0])) && PrefixKey(fold, q, 1) == Sub(Root, fold(q[0]));
      assert AliasAt(fold, p, q, 1);
    } else {
      ZipClashMeaning(fold, p[1..], q[1..]);
      assert p == [p[0]] + p[1..] && q == [q[0]] + q[1..];
      if n: nat :| AliasAt(fold, p, q, n) {
        CommonHead(fold, p, q, n - 1);
        assert AliasAt(fold, p[1..], q[1..], n - 1);
      }
      if n: nat :| AliasAt(fold, p[1..], q[1..], n) {
        CommonHead(fold, p, q, n);
        assert AliasAt(fold, p, q, n + 1);
      }
    }
  }

  /** What the pairwise rule rejects: a directory shared under two spellings, or a
      path that is both a file and a directory. */
  lemma CollisionMeaning(fold: Folding, p: Path, q: Path)
    ensures Collides(fold, p, q) <==> p != q && (Nested(p, q) || Aliases(fold, p, q))
  {
    ZipClashMeaning(fold, p, q);
  }

  lemma CollisionSymmetric(fold: Folding, p: Path, q: Path)
    ensures Collides(fold, p, q) == Collides(fold, q, p)
  {
    CollisionMeaning(fold, p, q);
    CollisionMeaning(fold, q, p);
    assert forall n: nat :: AliasAt(fold, p, q, n) == AliasAt(fold, q, p, n);
  }

  // ------------------------------------------------------------ prefix index

  datatype Index = Index(aliases: map<Prefix, Prefix>, files: set<Prefix>, directories: set<Prefix>)

  const EMPTY_INDEX := Index(map[], {}, {})

  /** A key's depth tells which prefix it belongs to. */
  predicate HasKey(fold: Folding, p: seq<Segment>, key: Prefix) {
    1 <= Depth(key) <= |p| && key == PrefixKey(fold, p, Depth(key))
  }

  ghost predicate SomeFile(fold: Folding, paths: set<Path>, key: Prefix) {
    exists p :: p in paths && HasKey(fold, p, key) && Depth(key) == |p|
  }

  ghost predicate SomeDirectory(fold: Folding, paths: set<Path>, key: Prefix) {
    exists p :: p in paths && HasKey(fold, p, key) && Depth(key) < |p|
  }

  /** The index holds exactly the prefixes of `paths`, each under its key. */
  ghost predicate Indexes(fold: Folding, index: Index, paths: set<Path>) {
    && (forall p, k :: p in paths && HasKey(fold, p, k) ==> k in index.aliases && index.aliases[k] == Take(p, Depth(k)))
    && (forall k :: k in index.aliases ==> SomeFile(fold, paths, k) || SomeDirectory(fold, paths, k))
    && (forall k :: k in index.files <==> SomeFile(fold, paths, k))
    && (forall k :: k in index.directories <==> SomeDirectory(fold, paths, k))
  }

  predicate KeyClear(index: Index, p: Path, k: Prefix)
    requires Depth(k) <= |p|
  {
    && (k in index.aliases ==> index.aliases[k] == Take(p, Depth(k)))
    && (if Depth(k) < |p| then k !in index.files else k !in index.directories)
  }

  ghost predicate Admits(fold: Folding, index: Index, p: Path) {
    forall k :: HasKey(fold, p, k) ==> KeyClear(index, p, k)
  }

  /** The index admits a new path exactly when the pairwise rule does, against
      every path it holds. */
  lemma IndexDecides(fold: Folding, index: Index, paths: set<Path>, p: Path)
    requires Indexes(fold, index, paths)
    ensures Admits(fold, index, p) <==> forall q :: q in paths ==> !Collides(fold, p, q)
  {
    if k :| HasKey(fold, p, k) && !KeyClear(index, p, k) {
      BlockedMeansCollision(fold, index, paths, p, k);
    }
    if q :| q in paths && Collides(fold, p, q) {
      CollisionMeansBlocked(fold, index, paths, p, q);
    }
  }

  lemma BlockedMeansCollision(fold: Folding, index: Index, paths: set<Path>, p: Path, k: Prefix)
    requires Indexes(fold, index, paths) && HasKey(fold, p, k) && !KeyClear(index, p, k)
    ensures exists q :: q in paths && Collides(fold, p, q)
  {
    var n := Depth(k);
    if k in index.aliases && index.aliases[k] != Take(p, n) {
      var q :| q in paths && HasKey(fold, q, k);
      assert AliasAt(fold, p, q, n);
      CollisionMeaning(fold, p, q);
    } else {
      var q :| q in paths && HasKey(fold, q, k) && (if n < |p| then n == |q| else n < |q|);
      SharedKeyCollides(fold, p, q, n);
    }
  }

  lemma SharedKeyCollides(fold: Folding, p: Path, q: Path, n: nat)
    requires 1 <= n <= |p| && n <= |q| && PrefixKey(fold, p, n) == PrefixKey(fold, q, n)
    requires if n < |p| then n == |q| else n < |q|
    ensures Collides(fold, p, q)
  {
    TakeEqual(p, q, n);
    assert AliasAt(fold, p, q, n) || p[..n] == q[..n];
    CollisionMeaning(fold, p, q);
  }

  lemma CollisionMeansBlocked(fold: Folding, index: Index, paths: set<Path>, p: Path, q: Path)
    requires Indexes(fold, index, paths) && q in paths && Collides(fold, p, q)
    ensures exists k :: HasKey(fold, p, k) && !KeyClear(index, p, k)
  {
    CollisionMeaning(fold, p, q);
    if n: nat :| AliasAt(fold, p, q, n) {
      SharedKeyBlocks(fold, index, paths, p, q, n);
    } else {
      var n := if p < q then |p| else |q|;
      TakeEqual(p, q, n);
      SharedKeyBlocks(fold, index, paths, p, q, n);
    }
  }

  lemma SharedKeyBlocks(fold: Folding, index: Index, paths: set<Path>, p: Path, q: Path, n: nat)
    requires Indexes(fold, index, paths) && q in paths
    requires 1 <= n <= |p| && n <= |q| && PrefixKey(fold, p, n) == PrefixKey(fold, q, n)
    requires Take(p, n) != Take(q, n) || n == |p| < |q| || n == |q| < |p|
    ensures exists k :: HasKey(fold, p, k) && !KeyClear(index, p, k)
  {
    var k := PrefixKey(fold, p, n);
    assert HasKey(fold, p, k) && HasKey(fold, q, k);
    assert !KeyClear(index, p, k);
  }

  /** The index after the first `n` prefixes of `p` were entered. */
  function Enter(fold: Folding, index: Index, p: Path, n: nat): Index
    requires n <= |p|
  {
    if n == 0 then index
    else
      var shorter := Enter(fold, index, p, n - 1);
      var key := PrefixKey(fold, p, n);
      Index(shorter.aliases[key := Take(p, n)],
            if n < |p| then shorter.files else shorter.files + {key},
            if n < |p| then shorter.directories + {key} else shorter.directories)
  }

  lemma {:induction false} EnterMeaning(fold: Folding, index: Index, p: Path, n: nat)
    requires n <= |p|
    ensures var after := Enter(fold, index, p, n);
      && (forall k :: k in after.aliases <==> k in index.aliases || (HasKey(fold, p, k) && Depth(k) <= n))
      && (forall k :: k in after.aliases ==>
            (after.aliases[k] == if HasKey(fold, p, k) && Depth(k) <= n then Take(p, Depth(k)) else index.aliases[k]))
      && (forall k :: k in after.files <==> k in index.files || (HasKey(fold, p, k) && Depth(k) == n == |p|))
      && (forall k :: k in after.directories <==>
            k in index.directories || (HasKey(fold, p, k) && Depth(k) <= n && Depth(k) < |p|))
  {
    if n > 0 {
      EnterMeaning(fold, index, p, n - 1);
      var key := PrefixKey(fold, p, n);
      forall k ensures HasKey(fold, p, k) && Depth(k) <= n <==> (HasKey(fold, p, k) && Depth(k) <= n - 1) || k == key {}
    }
  }

  /** Entering the shorter prefixes leaves every deeper key as it was. */
  lemma {:induction false} DeeperUntouched(fold: Folding, index: Index, p: Path, n: nat, k: Prefix)
    requires n <= |p| && n < Depth(k)
    ensures var after := Enter(fold, index, p, n);
      && (k in after.aliases <==> k in index.aliases)
      && (k in index.aliases ==> after.aliases[k] == index.aliases[k])
      && (k in after.files <==> k in index.files)
      && (k in after.directories <==> k in index.directories)
  {
    if n > 0 { DeeperUntouched(fold, index, p, n - 1, k); }
  }

  lemma OneMoreKey(fold: Folding, paths: set<Path>, p: Path, k: Prefix)
    ensures SomeFile(fold, paths + {p}, k) <==> SomeFile(fold, paths, k) || (HasKey(fold, p, k) && Depth(k) == |p|)
    ensures SomeDirectory(fold, paths + {p}, k)
       <==> SomeDirectory(fold, paths, k) || (HasKey(fold, p, k) && Depth(k) < |p|)
  {
    assert forall q :: q in paths + {p} <==> q in paths || q == p;
  }

  lemma EnteringIndexes(fold: Folding, index: Index, paths: set<Path>, p: Path)
    requires Indexes(fold, index, paths) && Admits(fold, index, p)
    ensures Indexes(fold, Enter(fold, index, p, |p|), paths + {p})
  {
    var after := Enter(fold, index, p, |p|);
    forall k
      ensures k in after.aliases ==> SomeFile(fold, paths + {p}, k) || SomeDirectory(fold, paths + {p}, k)
      ensures k in after.files <==> SomeFile(fold, paths + {p}, k)
      ensures k in after.directories <==> SomeDirectory(fold, paths + {p}, k)
    {
      EnteredKey(fold, index, paths, p, k);
    }
    forall q, k | q in paths + {p} && HasKey(fold, q, k)
      ensures k in after.aliases && after.aliases[k] == Take(q, Depth(k))
    {
      EnteredAlias(fold, index, paths, p, q, k);
    }
    hide Enter, Take, PrefixKey, SomeFile, SomeDirectory, Admits, KeyClear;
  }

  lemma EnteredKey(fold: Folding, index: Index, paths: set<Path>, p: Path, k: Prefix)
    requires Indexes(fold, index, paths)
    ensures var after := Enter(fold, index, p, |p|);
            && (k in after.aliases ==> SomeFile(fold, paths + {p}, k) || SomeDirectory(fold, paths + {p}, k))
            && (k in after.files <==> SomeFile(fold, paths + {p}, k))
            && (k in after.directories <==> SomeDirectory(fold, paths + {p}, k))
  {
    EnterMeaning(fold, index, p, |p|);
    OneMoreKey(fold, paths, p, k);
    KeyWithin(fold, p, k);
    hide Enter, Take, PrefixKey, SomeFile, SomeDirectory, HasKey;
  }

  lemma EnteredAlias(fold: Folding, index: Index, paths: set<Path>, p: Path, q: Path, k: Prefix)
    requires Indexes(fold, index, paths) && Admits(fold, index, p) && q in paths + {p} && HasKey(fold, q, k)
    ensures var after := Enter(fold, index, p, |p|);
            k in after.aliases && after.aliases[k] == Take(q, Depth(k))
  {
    EnterMeaning(fold, index, p, |p|);
    KeyWithin(fold, p, k);
    if HasKey(fold, p, k) { assert KeyClear(index, p, k); }
    hide Enter, Take, PrefixKey, SomeFile, SomeDirectory;
  }

  lemma KeyWithin(fold: Folding, p: Path, k: Prefix)
    ensures HasKey(fold, p, k) ==> 1 <= Depth(k) <= |p|
  {
  }

  // ------------------------------------------------- the manifest path check

  datatype PathCheck = Accepted | AmbiguousPath | FileDirectoryConflict | DuplicatePath

  ghost predicate Distinct(paths: seq<Path>) {
    forall i, j :: 0 <= i < j < |paths| ==> paths[i] != paths[j]
  }

  ghost predicate PairwiseClear(fold: Folding, paths: set<Path>) {
    forall p, q :: p in paths && q in paths ==> !Collides(fold, p, q)
  }

  function Elements(paths: seq<Path>): set<Path> { set p | p in paths }

  lemma OneMorePairwise(fold: Folding, paths: set<Path>, p: Path)
    requires PairwiseClear(fold, paths)
    ensures PairwiseClear(fold, paths + {p}) <==> forall q :: q in paths ==> !Collides(fold, p, q)
  {
    forall q | q in paths ensures Collides(fold, p, q) == Collides(fold, q, p) {
      CollisionSymmetric(fold, p, q);
    }
    if PairwiseClear(fold, paths + {p}) {
      forall q | q in paths ensures !Collides(fold, p, q) { assert p in paths + {p} && q in paths + {p}; }
    }
  }

  /** One prefix that is not clear is enough. */
  lemma NotClear(fold: Folding, index: Index, p: Path, n: nat)
    requires 1 <= n <= |p| && !KeyClear(index, p, PrefixKey(fold, p, n))
    ensures !Admits(fold, index, p)
  {
    assert HasKey(fold, p, PrefixKey(fold, p, n));
  }

  lemma AllClear(fold: Folding, index: Index, p: Path)
    requires forall n :: 1 <= n <= |p| ==> KeyClear(index, p, PrefixKey(fold, p, n))
    ensures Admits(fold, index, p)
  {
    forall k | HasKey(fold, p, k) ensures KeyClear(index, p, k) {
      assert KeyClear(index, p, PrefixKey(fold, p, Depth(k)));
    }
  }

  /** One path of the manifest: its prefixes are looked up and entered as they go.
      Prefixes of one path have keys of different depths, so what was entered for
      the shorter ones never affects the check of the longer ones. */
  method EnterPath(fold: Folding, before: Index, path: Path) returns (result: PathCheck, index: Index)
    ensures result.Accepted? || result.DuplicatePath? <==> Admits(fold, before, path)
    ensures Admits(fold, before, path) ==>
              (result.DuplicatePath? <==> PrefixKey(fold, path, |path|) in before.files)
    ensures result.Accepted? ==> index == Enter(fold, before, path, |path|)
  {
    hide Admits, HasKey, Take, PrefixKey;
    index := before;
    for n := 1 to |path| + 1
      invariant index == Enter(fold, before, path, n - 1)
      invariant forall m :: 1 <= m < n ==> KeyClear(before, path, PrefixKey(fold, path, m))
      invariant n == |path| + 1 ==> PrefixKey(fold, path, |path|) !in before.files
    {
      var prefix := Take(path, n);
      var key := PrefixKey(fold, path, n);
      DeeperUntouched(fold, before, path, n - 1, key);
      if key in index.aliases && index.aliases[key] != prefix {
        NotClear(fold, before, path, n);
        return AmbiguousPath, index;
      }
      if (n < |path| && key in index.files) || (n == |path| && key in index.directories) {
        NotClear(fold, before, path, n);
        return FileDirectoryConflict, index;
      }
      index := index.(aliases := index.aliases[key := prefix]);
      if n < |path| {
        index := index.(directories := index.directories + {key});
      } else {
        if key in index.files {
          AllClear(fold, before, path);
          return DuplicatePath, index;
        }
        index := index.(files := index.files + {key});
      }
    }
    AllClear(fold, before, path);
    result := Accepted;
  }

  /** Among paths the index admits, the file key is already there only for the very
      path itself. */
  lemma SameKeySamePath(fold: Folding, index: Index, paths: set<Path>, p: Path)
    requires Indexes(fold, index, paths) && Admits(fold, index, p)
    ensures PrefixKey(fold, p, |p|) in index.files <==> p in paths
  {
    var k := PrefixKey(fold, p, |p|);
    assert HasKey(fold, p, k) && KeyClear(index, p, k);
    if q :| q in paths && HasKey(fold, q, k) && Depth(k) == |q| {
      TakeEqual(p, q, |p|);
      assert p == p[..|p|] == q[..|q|] == q;
    }
  }

  /** `_check_manifest_paths` accepts a list exactly when it has no duplicate and no
      pair in it collides; in particular its answer does not depend on the order. */
  method CheckManifestPaths(fold: Folding, paths: seq<Path>) returns (result: PathCheck)
    ensures result.Accepted? <==> Distinct(paths) && PairwiseClear(fold, Elements(paths))
    ensures result.DuplicatePath? ==> !Distinct(paths)
    ensures result.AmbiguousPath? || result.FileDirectoryConflict? ==> !PairwiseClear(fold, Elements(paths))
  {
    var index := EMPTY_INDEX;
    for i := 0 to |paths|
      invariant Indexes(fold, index, Elements(paths[..i]))
      invariant Distinct(paths[..i]) && PairwiseClear(fold, Elements(paths[..i]))
    {
      ghost var done := Elements(paths[..i]);
      var before := index;
      var path := paths[i];
      assert paths[..i + 1] == paths[..i] + [path];
      assert Elements(paths[..i + 1]) == done + {path};
      OneMorePairwise(fold, done, path);
      IndexDecides(fold, before, done, path);
      var check;
      check, index := EnterPath(fold, before, path);
      if Admits(fold, before, path) {
        SameKeySamePath(fold, before, done, path);
        EnteringIndexes(fold, before, done, path);
      } else {
        assert Elements(paths[..i + 1]) <= Elements(paths);
      }
      if !check.Accepted? {
        return check;
      }
    }
    assert paths[..|paths|] == paths;
    result := Accepted;
  }
}
