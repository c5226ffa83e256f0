/** The discovery inventory: files are admitted one at a time through the same
    prefix index, kept in fields, under a file count and a byte budget. */
module Inventory {
  import opened Common
  import opened Paths

  const MAX_FILES: nat := 20000
  const MAX_TOTAL_BYTES: nat := 1024 * 1024 * 1024

  datatype AddOutcome =
    | Added
    | UnsafeSource | DuplicateLogical | AlreadyIncluded | PathCollision
    | TooManyFiles | Unreadable | TooManyBytes

  function TotalSize(files: seq<FileEntry>): nat {
    if files == [] then 0 else TotalSize(files[..|files| - 1]) + files[|files| - 1].size
  }

  function PathsOf(files: seq<FileEntry>): set<Path> { set f | f in files :: f.path }

  lemma OneMoreFile(files: seq<FileEntry>, f: FileEntry)
    ensures TotalSize(files + [f]) == TotalSize(files) + f.size
    ensures PathsOf(files + [f]) == PathsOf(files) + {f.path}
    ensures f.path in PathsOf(files) <==> exists i :: 0 <= i < |files| && files[i].path == f.path
  {
    assert (files + [f])[..|files|] == files;
    assert forall g :: g in files + [f] <==> g in files || g == f;
  }

  lemma StillDistinct(files: seq<FileEntry>, f: FileEntry)
    requires f.path !in PathsOf(files) && forall i, j :: 0 <= i < j < |files| ==> files[i].path != files[j].path
    ensures forall i, j :: 0 <= i < j < |files + [f]| ==> (files + [f])[i].path != (files + [f])[j].path
  {
    assert forall i :: 0 <= i < |files| ==> files[i].path in PathsOf(files);
  }

  /** The file list, the two look-up tables and the byte total tell the same story. */
  ghost predicate Consistent(files: seq<FileEntry>, sources: map<Path, string>, physical: map<string, Path>,
                             total: nat) {
    && (forall i, j :: 0 <= i < j < |files| ==> files[i].path != files[j].path)
    && sources.Keys == PathsOf(files)
    && (forall p :: p in sources ==> sources[p] in physical && physical[sources[p]] == p)
    && total == TotalSize(files) <= MAX_TOTAL_BYTES && |files| <= MAX_FILES
  }

  lemma IncludedConsistent(files: seq<FileEntry>, sources: map<Path, string>, physical: map<string, Path>, total: nat,
                           f: FileEntry, target: string)
    requires Consistent(files, sources, physical, total) && f.path !in sources && target !in physical
    requires |files| < MAX_FILES && total + f.size <= MAX_TOTAL_BYTES
    ensures Consistent(files + [f], sources[f.path := target], physical[target := f.path], total + f.size)
  {
    OneMoreFile(files, f);
    StillDistinct(files, f);
  }

  class Inventory {
    const fold: Folding
    var files: seq<FileEntry>
    var sources: map<Path, string>      // logical path -> approved target
    var physical: map<string, Path>     // target -> logical path
    var total: nat
    var aliases: map<Prefix, Prefix>
    var fileKeys: set<Prefix>
    var directoryKeys: set<Prefix>
    var fileLimitExceeded: bool

    ghost function Accepted(): set<Path> reads this { PathsOf(files) }

    ghost predicate Valid() reads this {
      && Indexes(fold, Index(aliases, fileKeys, directoryKeys), Accepted())
      && PairwiseClear(fold, Accepted())
      && Consistent(files, sources, physical, total)
    }

    constructor (fold: Folding)
      ensures Valid() && this.fold == fold && files == [] && !fileLimitExceeded
    {
      this.fold := fold;
      files, sources, physical, total := [], map[], map[], 0;
      aliases, fileKeys, directoryKeys := map[], {}, {};
      fileLimitExceeded := false;
    }

    /** The incremental look-up: false exactly when some prefix is taken. */
    method PrefixesFree(logical: Path) returns (free: bool)
      requires Valid()
      ensures free <==> forall q :: q in Accepted() ==> !Collides(fold, logical, q)
    {
      IndexDecides(fold, Index(aliases, fileKeys, directoryKeys), Accepted(), logical);
      hide Admits, Collides;
      free := LookUp(logical);
    }

    /** Every prefix of the path is looked up, the whole path last. */
    method LookUp(logical: Path) returns (free: bool)
      ensures free <==> Admits(fold, Index(aliases, fileKeys, directoryKeys), logical)
    {
      hide Admits, HasKey, Take, PrefixKey;
      ghost var index := Index(aliases, fileKeys, directoryKeys);
      for n := 1 to |logical| + 1
        invariant forall m :: 1 <= m < n && m < |logical| ==> KeyClear(index, logical, PrefixKey(fold, logical, m))
        invariant n == |logical| + 1 ==>
          var k := PrefixKey(fold, logical, |logical|); k in aliases ==> aliases[k] == Take(logical, |logical|)
      {
        var key := PrefixKey(fold, logical, n);
        if key in aliases && aliases[key] != Take(logical, n) {
          NotClear(fold, index, logical, n);
          return false;
        }
        if n < |logical| && key in fileKeys {
          NotClear(fold, index, logical, n);
          return false;
        }
      }
      var last := PrefixKey(fold, logical, |logical|);
      if last in directoryKeys {
        NotClear(fold, index, logical, |logical|);
        return false;
      }
      AllClear(fold, index, logical);
      free := true;
    }

    method EnterPrefixes(logical: Path)
      modifies this`aliases, this`fileKeys, this`directoryKeys
      ensures Index(aliases, fileKeys, directoryKeys)
           == Enter(fold, old(Index(aliases, fileKeys, directoryKeys)), logical, |logical|)
    {
      ghost var before := Index(aliases, fileKeys, directoryKeys);
      for n := 1 to |logical| + 1
        invariant Index(aliases, fileKeys, directoryKeys) == Enter(fold, before, logical, n - 1)
      {
        var key := PrefixKey(fold, logical, n);
        aliases := aliases[key := Take(logical, n)];
        if n < |logical| {
          directoryKeys := directoryKeys + {key};
        } else {
          fileKeys := fileKeys + {key};
        }
      }
    }

    ghost predicate Eligible(logical: Path, target: string, size: nat) reads this {
      && logical !in sources && target !in physical
      && (forall q :: q in Accepted() ==> !Collides(fold, logical, q))
      && |files| < MAX_FILES && total + size <= MAX_TOTAL_BYTES
    }

    method Include(logical: Path, target: string, data: Bytes)
      requires Valid() && Eligible(logical, target, |data|)
      modifies this`files, this`sources, this`physical, this`total, this`aliases, this`fileKeys, this`directoryKeys
      ensures Valid()
      ensures files == old(files) + [FileEntry(logical, Sha256(data), |data|)]
      ensures sources == old(sources)[logical := target] && physical == old(physical)[target := logical]
    {
      var entry := FileEntry(logical, Sha256(data), |data|);
      OneMoreFile(files, entry);
      IncludedConsistent(files, sources, physical, total, entry, target);
      Admission(logical);
      EnterPrefixes(logical);
      assert Indexes(fold, Index(aliases, fileKeys, directoryKeys), old(Accepted()) + {logical});
      total := total + |data|;
      files := files + [entry];
      sources := sources[logical := target];
      physical := physical[target := logical];
      assert Accepted() == old(Accepted()) + {logical};
      assert Consistent(files, sources, physical, total);
    }

    /** A file enters the inventory exactly when its source is safe and new, its
        logical path collides with no accepted one, and both budgets allow it; in
        every other case the inventory keeps its content. */
    method AddFile(logical: Path, safe: bool, target: string, data: Option<Bytes>) returns (outcome: AddOutcome)
      requires Valid()
      modifies this
      ensures Valid()
      ensures outcome.Added? <==> safe && data.Some? && old(Eligible(logical, target, |data.value|))
      ensures outcome.Added? ==>
        && files == old(files) + [FileEntry(logical, Sha256(data.value), |data.value|)]
        && sources == old(sources)[logical := target] && physical == old(physical)[target := logical]
      ensures !outcome.Added? ==>
        unchanged(this`files, this`sources, this`physical, this`total, this`aliases, this`fileKeys, this`directoryKeys)
      ensures fileLimitExceeded == (old(fileLimitExceeded) || outcome.TooManyFiles?)
    {
      if !safe { return UnsafeSource; }
      if logical in sources && sources[logical] != target { return DuplicateLogical; }
      if target in physical { return AlreadyIncluded; }
      var free := PrefixesFree(logical);
      if !free { return PathCollision; }
      if |files| >= MAX_FILES {
        fileLimitExceeded := true;
        return TooManyFiles;
      }
      if data.None? { return Unreadable; }
      if total + |data.value| > MAX_TOTAL_BYTES { return TooManyBytes; }
      Include(logical, target, data.value);
      outcome := Added;
    }

    lemma Admission(logical: Path)
      requires Valid() && forall q :: q in Accepted() ==> !Collides(fold, logical, q)
      ensures var index := Index(aliases, fileKeys, directoryKeys);
              Indexes(fold, Enter(fold, index, logical, |logical|), Accepted() + {logical})
      ensures PairwiseClear(fold, Accepted() + {logical})
    {
      var index := Index(aliases, fileKeys, directoryKeys);
      IndexDecides(fold, index, Accepted(), logical);
      EnteringIndexes(fold, index, Accepted(), logical);
      OneMorePairwise(fold, Accepted(), logical);
    }
  }
}
