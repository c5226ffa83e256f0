/** The snapshot archive: an uncompressed ustar file whose first member is a manifest of
    all the others, the writer and the bounded reader. */
module Archive {
  import opened Common
  import Documents

  const BLOCK: nat := 512
  const RECORD: nat := 10240
  const MAX_MANIFEST: nat := 16 * 1024 * 1024
  const READ_SIZE: nat := 1024 * 1024
  const MAX_MEMBER: nat := 0x2_0000_0000     // eleven octal digits
  const LOCK := ".server.lock"
  const FORMAT := "threaddesk.server.backup.v1"
  const MANIFEST_NAME := "manifest.json"
  const PREFIX := "data/"

  datatype Item = Item(path: string, size: int, sha256: Digest)
  datatype Manifest = Manifest(format: string, files: seq<Item>, directories: seq<string>, total: int)

  /** What a member header says. */
  datatype Header = Header(name: string, size: int, regular: bool)

  /** The foreign encodings: 512-byte headers, the manifest's JSON, and the folding of
      names a portable file system may identify. `portable` bounds the encoded length of
      a path and of its parts. */
  datatype Codec = Codec(encode: Header -> Option<Bytes>, decode: Bytes -> Option<Header>,
                         render: Manifest -> Bytes, read: Bytes -> Option<Manifest>,
                         fold: string -> string, portable: string -> bool)

  function Zeros(n: nat): (z: Bytes)
    ensures |z| == n && forall i :: 0 <= i < n ==> z[i] == 0
  {
    seq(n, i => 0)
  }

  // -------------------------------------------------------------- the manifest

  predicate Part(p: string) { p != "" && p != "." && p != ".." }

  predicate Safe(path: string) {
    && path != "" && path != LOCK
    && (forall i :: 0 <= i < |path| ==> path[i] != '\\' && path[i] != ':' && path[i] >= ' ' && path[i] != '\U{7f}')
    && (forall i :: 0 <= i < |Documents.Split(path)| ==> Part(Documents.Split(path)[i]))
  }

  /** `_relative`. */
  predicate Relative(c: Codec, path: string) { Safe(path) && c.portable(path) }

  /** The directories a path lies in. */
  function Ancestors(path: string): set<string> {
    set k | 0 <= k < |path| && path[k] == '/' :: path[..k]
  }

  function Sizes(files: seq<Item>): int {
    if files == [] then 0 else Sizes(files[..|files| - 1]) + files[|files| - 1].size
  }

  function FilePaths(files: seq<Item>): seq<string> { seq(|files|, i requires 0 <= i < |files| => files[i].path) }

  function AllPaths(m: Manifest): seq<string> { FilePaths(m.files) + m.directories }

  /** Paths the reader takes, and sizes a header can hold. */
  ghost predicate Writable(c: Codec, m: Manifest) {
    && m.format == FORMAT && m.total == Sizes(m.files)
    && (forall i :: 0 <= i < |AllPaths(m)| ==> Relative(c, AllPaths(m)[i]))
    && (forall i :: 0 <= i < |m.files| ==> 0 <= m.files[i].size < MAX_MEMBER)
  }

  /** The most JSON takes for an entry: a path of 4096 encoded bytes with every character
      escaped, a digest and a size of eleven octal digits. */
  const MAX_ENTRY: nat := 16 * 1024

  /** A header takes one block, is not the terminator's, holds no size past its eleven
      octal digits and is read back as written. */
  ghost predicate Faithful(c: Codec) {
    && (forall h :: c.encode(h).Some? ==>
          |c.encode(h).value| == BLOCK && c.encode(h).value != Zeros(BLOCK) && c.decode(c.encode(h).value) == Some(h))
    && (forall h :: c.encode(h).Some? ==> 0 <= h.size < MAX_MEMBER)
  }

  /** The manifest at hand is read back as written, and if its paths and sizes are such as
      the archive can hold, its length is bounded by its entries. */
  ghost predicate Told(c: Codec, m: Manifest) {
    && c.read(c.render(m)) == Some(m)
    && (Writable(c, m) ==> |c.render(m)| <= 1024 + MAX_ENTRY * (|m.files| + |m.directories|))
  }

  /** A manifest that may be restored: bounded, of safe paths, no two of them the same on
      any portable file system, and none inside a file. */
  ghost predicate Acceptable(c: Codec, m: Manifest, maxBytes: nat, maxFiles: nat) {
    && m.format == FORMAT && |m.files| + |m.directories| <= maxFiles
    && (forall i :: 0 <= i < |AllPaths(m)| ==> Relative(c, AllPaths(m)[i]))
    && (forall i :: 0 <= i < |m.files| ==> m.files[i].size >= 0)
    && m.total == Sizes(m.files) <= maxBytes
    && (forall i, j :: 0 <= i < j < |AllPaths(m)| ==> c.fold(AllPaths(m)[i]) != c.fold(AllPaths(m)[j]))
    && (forall i, j :: 0 <= i < |AllPaths(m)| && 0 <= j < |m.files| ==> m.files[j].path !in Ancestors(AllPaths(m)[i]))
  }

  function Indexed(files: seq<Item>): map<string, Item> {
    if files == [] then map[] else Indexed(files[..|files| - 1])[files[|files| - 1].path := files[|files| - 1]]
  }

  predicate Lists(files: seq<Item>, path: string) { exists i :: 0 <= i < |files| && files[i].path == path }

  lemma {:induction false} IndexedHas(files: seq<Item>)
    ensures forall p :: p in Indexed(files) <==> Lists(files, p)
    ensures forall p :: p in Indexed(files) ==> Indexed(files)[p].path == p && Indexed(files)[p] in files
    decreases |files|
  {
    if files != [] {
      var n := |files| - 1;
      IndexedHas(files[..n]);
      forall p ensures p in Indexed(files) <==> Lists(files, p) { ListsSnoc(files, p); }
    }
  }

  lemma ListsSnoc(files: seq<Item>, p: string)
    requires files != []
    ensures Lists(files, p) <==> Lists(files[..|files| - 1], p) || files[|files| - 1].path == p
  {
    var n := |files| - 1;
    if Lists(files[..n], p) {
      var i :| 0 <= i < n && files[..n][i].path == p;
      assert files[i].path == p;
    }
    if Lists(files, p) {
      var i :| 0 <= i < |files| && files[i].path == p;
      assert i < n ==> files[..n][i].path == p;
    }
  }

  lemma ListsCons(files: seq<Item>, p: string)
    requires files != []
    ensures Lists(files, p) <==> files[0].path == p || Lists(files[1..], p)
  {
    if Lists(files[1..], p) {
      var i :| 0 <= i < |files[1..]| && files[1..][i].path == p;
      assert files[i + 1].path == p;
    }
    if Lists(files, p) {
      var i :| 0 <= i < |files| && files[i].path == p;
      assert i > 0 ==> files[1..][i - 1].path == p;
    }
  }

  lemma {:induction false} IndexedAt(files: seq<Item>, i: nat)
    requires i < |files| && forall j, k :: 0 <= j < k < |files| ==> files[j].path != files[k].path
    ensures files[i].path in Indexed(files) && Indexed(files)[files[i].path] == files[i]
    decreases |files|
  {
    if i < |files| - 1 {
      IndexedAt(files[..|files| - 1], i);
    }
  }

  // --------------------------------------------------------- what is in a file

  function Padding(size: nat): nat { (BLOCK - size % BLOCK) % BLOCK }

  type Contents = map<string, Bytes>

  datatype HeaderRead = Bad | Terminator | Plain(header: Header)

  /** What the next header is, and what then remains. */
  function HeaderOf(c: Codec, rest: Bytes): HeaderRead {
    if |rest| < BLOCK then Bad
    else if rest[..BLOCK] == Zeros(BLOCK) then
      if |rest| >= 2 * BLOCK && rest == Zeros(|rest|) then Terminator else Bad
    else
      var h := c.decode(rest[..BLOCK]);
      if h.None? || !h.value.regular then Bad else Plain(h.value)
  }

  datatype Taken = Taken(seen: Contents, rest: Bytes)

  /** The member with this header, taken from what follows the header. */
  function MemberOf(c: Codec, header: Header, after: Bytes, expected: map<string, Item>,
                    seen: Contents): (taken: Option<Taken>)
    ensures taken.Some? ==> |taken.value.rest| <= |after|
  {
    if !(PREFIX <= header.name) then None
    else
      var path, size := header.name[|PREFIX|..], header.size;
      if !Relative(c, path) || path !in expected || path in seen || size != expected[path].size || size < 0 then None
      else if |after| < size + Padding(size) || Sha256(after[..size]) != expected[path].sha256 then None
      else Some(Taken(seen[path := after[..size]], after[size + Padding(size)..]))
  }

  /** What the reader makes of the members that follow the manifest. */
  function Members(c: Codec, rest: Bytes, expected: map<string, Item>, seen: Contents): Option<Contents>
    decreases |rest|
  {
    match HeaderOf(c, rest)
    case Bad => None
    case Terminator => if seen.Keys == expected.Keys then Some(seen) else None
    case Plain(header) =>
      var taken := MemberOf(c, header, rest[BLOCK..], expected, seen);
      if taken.None? then None else Members(c, taken.value.rest, expected, taken.value.seen)
  }

  datatype Restored = Restored(manifest: Manifest, files: Contents) | Corrupt

  function Bound(maxBytes: nat, maxFiles: nat): nat { maxBytes + MAX_MANIFEST + 4096 * (maxFiles + 1) }

  /** What the reader makes of a whole archive; `usable` stands for the checks of the
      restored credentials and databases. */
  ghost function Extracted(c: Codec, archive: Bytes, maxBytes: nat, maxFiles: nat, usable: Contents -> bool): Restored {
    var first := HeaderOf(c, archive);
    if |archive| > Bound(maxBytes, maxFiles) || !first.Plain? then Corrupt
    else if first.header.name != MANIFEST_NAME || !(0 <= first.header.size <= MAX_MANIFEST) then Corrupt
    else FromManifest(c, archive[BLOCK..], first.header.size, maxBytes, maxFiles, usable)
  }

  ghost function FromManifest(c: Codec, after: Bytes, size: nat, maxBytes: nat, maxFiles: nat,
                              usable: Contents -> bool): Restored {
    if |after| < size + Padding(size) then Corrupt
    else
      var m := c.read(after[..size]);
      if m.None? || !Acceptable(c, m.value, maxBytes, maxFiles) then Corrupt
      else
        var files := Members(c, after[size + Padding(size)..], Indexed(m.value.files), map[]);
        if files.None? || !usable(files.value) then Corrupt else Restored(m.value, files.value)
  }

  predicate Matches(item: Item, files: Contents) {
    item.path in files && |files[item.path]| == item.size && Sha256(files[item.path]) == item.sha256
  }

  /** What was restored is what the manifest lists: each path once, with its size and its
      digest, and nothing else. */
  ghost predicate Exactly(m: Manifest, files: Contents) {
    && (forall p :: p in files <==> Lists(m.files, p))
    && (forall i :: 0 <= i < |m.files| ==> Matches(m.files[i], files))
  }

  ghost predicate Agrees(expected: map<string, Item>, seen: Contents) {
    forall p :: p in seen ==> p in expected && |seen[p]| == expected[p].size && Sha256(seen[p]) == expected[p].sha256
  }

  lemma {:induction false} MembersAgree(c: Codec, rest: Bytes, expected: map<string, Item>, seen: Contents)
    requires Agrees(expected, seen)
    ensures var out := Members(c, rest, expected, seen);
            out.Some? ==> Agrees(expected, out.value) && out.value.Keys == expected.Keys
    decreases |rest|
  {
    var header := HeaderOf(c, rest);
    if header.Plain? {
      var taken := MemberOf(c, header.header, rest[BLOCK..], expected, seen);
      if taken.Some? { MembersAgree(c, taken.value.rest, expected, taken.value.seen); }
    }
  }

  lemma DistinctPaths(c: Codec, m: Manifest, maxBytes: nat, maxFiles: nat)
    requires Acceptable(c, m, maxBytes, maxFiles)
    ensures forall i, j :: 0 <= i < j < |m.files| ==> m.files[i].path != m.files[j].path
  {
    forall i, j | 0 <= i < j < |m.files| ensures m.files[i].path != m.files[j].path {
      assert AllPaths(m)[i] == m.files[i].path && AllPaths(m)[j] == m.files[j].path;
    }
  }

  /** Whatever bytes the reader accepts, it restores exactly what their manifest lists. */
  lemma AcceptedIsExact(c: Codec, archive: Bytes, maxBytes: nat, maxFiles: nat, usable: Contents -> bool)
    ensures var out := Extracted(c, archive, maxBytes, maxFiles, usable);
            out.Restored? ==> Acceptable(c, out.manifest, maxBytes, maxFiles) && Exactly(out.manifest, out.files)
  {
    var out := Extracted(c, archive, maxBytes, maxFiles, usable);
    if out.Restored? {
      var m := out.manifest;
      var size := HeaderOf(c, archive).header.size;
      MembersAgree(c, archive[BLOCK..][size + Padding(size)..], Indexed(m.files), map[]);
      IndexedHas(m.files);
      DistinctPaths(c, m, maxBytes, maxFiles);
      forall i | 0 <= i < |m.files|
        ensures Matches(m.files[i], out.files)
      {
        IndexedAt(m.files, i);
      }
    }
  }

  // ------------------------------------------------------------- the manifest

  lemma {:induction false} SizesMonotone(files: seq<Item>, n: nat)
    requires n <= |files| && forall i :: 0 <= i < |files| ==> files[i].size >= 0
    ensures 0 <= Sizes(files[..n]) <= Sizes(files)
    decreases |files|
  {
    if n < |files| {
      var rest := files[..|files| - 1];
      assert rest[..n] == files[..n];
      SizesMonotone(rest, n);
    } else {
      assert files[..n] == files;
      if n > 0 { SizesMonotone(files[..n - 1], n - 1); assert files[..n - 1][..n - 1] == files[..n - 1]; }
    }
  }

  /** What the first loop of the validation has established of the first `n` files. */
  ghost predicate FilesPass(c: Codec, m: Manifest, maxBytes: nat, n: nat) {
    && n <= |m.files|
    && (forall i :: 0 <= i < n ==> Relative(c, m.files[i].path) && m.files[i].size >= 0)
    && (forall i, j :: 0 <= i < j < n ==> m.files[i].path != m.files[j].path)
    && Sizes(m.files[..n]) <= maxBytes
  }

  lemma FilesMustPass(c: Codec, m: Manifest, maxBytes: nat, maxFiles: nat, n: nat)
    requires Acceptable(c, m, maxBytes, maxFiles) && n <= |m.files|
    ensures FilesPass(c, m, maxBytes, n)
  {
    SizesMonotone(m.files, n);
    DistinctPaths(c, m, maxBytes, maxFiles);
    forall i | 0 <= i < n ensures Relative(c, m.files[i].path) { assert AllPaths(m)[i] == m.files[i].path; }
  }

  /** What the second loop has established of the first `n` paths. */
  ghost predicate PathsPass(c: Codec, m: Manifest, n: nat) {
    && n <= |AllPaths(m)|
    && (forall i, j :: 0 <= i < j < n ==> c.fold(AllPaths(m)[i]) != c.fold(AllPaths(m)[j]))
    && (forall i, j :: 0 <= i < n && 0 <= j < |m.files| ==> m.files[j].path !in Ancestors(AllPaths(m)[i]))
  }

  lemma OneMoreIndexed(files: seq<Item>, n: nat)
    requires n < |files|
    ensures Indexed(files[..n + 1]) == Indexed(files[..n])[files[n].path := files[n]]
    ensures Sizes(files[..n + 1]) == Sizes(files[..n]) + files[n].size
    ensures files[n].path in Indexed(files[..n]) <==> exists i :: 0 <= i < n && files[i].path == files[n].path
  {
    assert files[..n + 1][..n] == files[..n];
    IndexedHas(files[..n]);
    assert forall i :: 0 <= i < n ==> files[..n][i] == files[i];
  }

  lemma OneMoreFile(c: Codec, m: Manifest, maxBytes: nat, n: nat)
    requires n < |m.files| && FilesPass(c, m, maxBytes, n)
    ensures var item := m.files[n];
            FilesPass(c, m, maxBytes, n + 1) <==>
              && Relative(c, item.path) && item.size >= 0 && item.path !in Indexed(m.files[..n])
              && Sizes(m.files[..n]) + item.size <= maxBytes
  {
    OneMoreIndexed(m.files, n);
  }

  /** The first loop: paths, sizes, duplicates, the running total. */
  method IndexFiles(c: Codec, m: Manifest, maxBytes: nat) returns (paths: Option<map<string, Item>>, total: int)
    ensures paths.Some? <==> FilesPass(c, m, maxBytes, |m.files|)
    ensures paths.Some? ==> paths.value == Indexed(m.files) && total == Sizes(m.files)
  {
    var index: map<string, Item> := map[];
    total := 0;
    for n := 0 to |m.files|
      invariant FilesPass(c, m, maxBytes, n)
      invariant index == Indexed(m.files[..n]) && total == Sizes(m.files[..n])
    {
      var item := m.files[n];
      OneMoreIndexed(m.files, n);
      OneMoreFile(c, m, maxBytes, n);
      Longer(c, m, maxBytes, n + 1);
      if !Relative(c, item.path) || item.size < 0 || item.path in index { return None, total; }
      index := index[item.path := item];
      total := total + item.size;
      if total > maxBytes { return None, total; }
    }
    assert m.files[..|m.files|] == m.files;
    paths := Some(index);
  }

  /** Passing is passing of every prefix. */
  lemma Longer(c: Codec, m: Manifest, maxBytes: nat, n: nat)
    requires n <= |m.files|
    ensures FilesPass(c, m, maxBytes, |m.files|) ==> FilesPass(c, m, maxBytes, n)
  {
    if FilesPass(c, m, maxBytes, |m.files|) {
      assert m.files[..|m.files|] == m.files;
      SizesMonotone(m.files, n);
    }
  }

  lemma Disjoint(a: set<string>, b: set<string>)
    requires a * b == {}
    ensures forall p :: p in b ==> p !in a
  {
    forall p | p in b ensures p !in a { assert p in a * b <==> p in a; }
  }

  /** The second loop: aliases, and files used as directories. */
  method CheckPortable(c: Codec, m: Manifest, paths: map<string, Item>) returns (ok: bool)
    requires forall p :: p in paths <==> Lists(m.files, p)
    ensures ok <==> PathsPass(c, m, |AllPaths(m)|)
  {
    var all := AllPaths(m);
    var portable: set<string> := {};
    for n := 0 to |all|
      invariant PathsPass(c, m, n)
      invariant forall a :: a in portable <==> exists i :: 0 <= i < n && c.fold(all[i]) == a
    {
      var alias := c.fold(all[n]);
      if alias in portable { return false; }
      portable := portable + {alias};
      if Ancestors(all[n]) * paths.Keys != {} {
        var p :| p in Ancestors(all[n]) * paths.Keys;
        var j :| 0 <= j < |m.files| && m.files[j].path == p;
        assert m.files[j].path in Ancestors(AllPaths(m)[n]);
        return false;
      }
      Disjoint(Ancestors(all[n]), paths.Keys);
      forall j | 0 <= j < |m.files| ensures m.files[j].path !in Ancestors(all[n]) {
        assert m.files[j].path in paths.Keys;
      }
    }
    ok := true;
  }

  /** `_validate_manifest`. */
  method ValidateManifest(c: Codec, m: Manifest, maxBytes: nat, maxFiles: nat)
    returns (paths: Option<map<string, Item>>)
    ensures paths.Some? <==> Acceptable(c, m, maxBytes, maxFiles)
    ensures paths.Some? ==> paths.value == Indexed(m.files)
  {
    if m.format != FORMAT || |m.files| + |m.directories| > maxFiles { return None; }
    var index, total := IndexFiles(c, m, maxBytes);
    MustPass(c, m, maxBytes, maxFiles);
    if index.None? { return None; }
    if exists i :: 0 <= i < |m.directories| && !Relative(c, m.directories[i]) {
      DirectoryUnsafe(c, m, maxBytes, maxFiles);
      return None;
    }
    IndexedHas(m.files);
    var ok := CheckPortable(c, m, index.value);
    if !ok || total != m.total { return None; }
    PassingIsAcceptable(c, m, maxBytes, maxFiles);
    paths := index;
  }

  lemma MustPass(c: Codec, m: Manifest, maxBytes: nat, maxFiles: nat)
    ensures Acceptable(c, m, maxBytes, maxFiles) ==>
              FilesPass(c, m, maxBytes, |m.files|) && PathsPass(c, m, |AllPaths(m)|)
  {
    if Acceptable(c, m, maxBytes, maxFiles) { FilesMustPass(c, m, maxBytes, maxFiles, |m.files|); }
  }

  lemma DirectoryUnsafe(c: Codec, m: Manifest, maxBytes: nat, maxFiles: nat)
    requires exists i :: 0 <= i < |m.directories| && !Relative(c, m.directories[i])
    ensures !Acceptable(c, m, maxBytes, maxFiles)
  {
    var i :| 0 <= i < |m.directories| && !Relative(c, m.directories[i]);
    assert AllPaths(m)[|m.files| + i] == m.directories[i];
  }

  lemma PassingIsAcceptable(c: Codec, m: Manifest, maxBytes: nat, maxFiles: nat)
    requires m.format == FORMAT && |m.files| + |m.directories| <= maxFiles && m.total == Sizes(m.files)
    requires FilesPass(c, m, maxBytes, |m.files|) && PathsPass(c, m, |AllPaths(m)|)
    requires forall i :: 0 <= i < |m.directories| ==> Relative(c, m.directories[i])
    ensures Acceptable(c, m, maxBytes, maxFiles)
  {
    assert m.files[..|m.files|] == m.files;
    forall i | 0 <= i < |AllPaths(m)| ensures Relative(c, AllPaths(m)[i]) {
      assert AllPaths(m)[i] == if i < |m.files| then m.files[i].path else m.directories[i - |m.files|];
    }
  }

  // --------------------------------------------------------------- the reader

  class Reader {
    const data: Bytes
    var pos: nat

    ghost predicate Valid() reads this { pos <= |data| }

    ghost function Rest(): Bytes reads this requires Valid() { data[pos..] }

    constructor (data: Bytes)
      ensures Valid() && this.data == data && Rest() == data
    {
      this.data, pos := data, 0;
    }

    /** Up to `n` bytes; fewer only at the end. */
    method Read(n: nat) returns (chunk: Bytes)
      requires Valid()
      modifies this
      ensures Valid() && old(Rest()) == chunk + Rest()
      ensures |chunk| == if n <= |old(Rest())| then n else |old(Rest())|
    {
      var end := if pos + n <= |data| then pos + n else |data|;
      chunk := data[pos..end];
      assert data[pos..] == data[pos..end] + data[end..];
      pos := end;
    }
  }

  lemma Prefix(a: Bytes, b: Bytes)
    ensures (a + b)[..|a|] == a && (a + b)[|a|..] == b
  {
  }

  lemma ZerosSplit(a: Bytes, b: Bytes)
    ensures a + b == Zeros(|a + b|) <==> a == Zeros(|a|) && b == Zeros(|b|)
  {
    if a + b == Zeros(|a + b|) {
      assert forall i :: 0 <= i < |a| ==> a[i] == (a + b)[i];
      assert forall i :: 0 <= i < |b| ==> b[i] == (a + b)[|a| + i];
    }
  }

  /** Only zeros until the end of the archive. */
  method OnlyZeros(reader: Reader) returns (ok: bool)
    requires reader.Valid()
    modifies reader
    ensures reader.Valid() && (ok <==> old(reader.Rest()) == Zeros(|old(reader.Rest())|))
  {
    ghost var rest := reader.Rest();
    ghost var done: Bytes := [];
    assert done == Zeros(0);
    while true
      invariant reader.Valid() && rest == done + reader.Rest() && done == Zeros(|done|)
      decreases |reader.Rest()|
    {
      ghost var before := reader.Rest();
      var block := reader.Read(READ_SIZE);
      ZerosSplit(block, reader.Rest());
      ZerosSplit(done, before);
      if block == [] { assert done == rest; return true; }
      if block != Zeros(|block|) { return false; }
      ZerosSplit(done, block);
      assert done + before == (done + block) + reader.Rest();
      done := done + block;
    }
  }

  method ReadHeader(c: Codec, reader: Reader) returns (out: HeaderRead)
    requires reader.Valid()
    modifies reader
    ensures reader.Valid() && out == HeaderOf(c, old(reader.Rest()))
    ensures out.Plain? ==> |old(reader.Rest())| >= BLOCK && reader.Rest() == old(reader.Rest())[BLOCK..]
  {
    ghost var rest := reader.Rest();
    var raw := reader.Read(BLOCK);
    if |raw| != BLOCK { return Bad; }
    Prefix(raw, reader.Rest());
    ghost var after := reader.Rest();
    if raw == Zeros(BLOCK) {
      ZerosSplit(raw, after);
      var second := reader.Read(BLOCK);
      ZerosSplit(second, reader.Rest());
      if second != Zeros(BLOCK) { return Bad; }
      var ok := OnlyZeros(reader);
      return if ok then Terminator else Bad;
    }
    var h := c.decode(raw);
    out := if h.None? || !h.value.regular then Bad else Plain(h.value);
  }

  lemma BodyAndPadding(rest: Bytes, body: Bytes, padding: Bytes, after: Bytes)
    requires rest == body + (padding + after)
    ensures |rest| == |body| + |padding| + |after|
    ensures rest[..|body|] == body && rest[|body| + |padding|..] == after
  {
    assert rest == (body + padding) + after;
    Prefix(body, padding + after);
    Prefix(body + padding, after);
  }

  lemma Associative(a: Bytes, b: Bytes, c: Bytes)
    ensures (a + b) + c == a + (b + c)
  {
  }

  /** The content alone, block by block, or nothing if it ends early. */
  method ReadContent(reader: Reader, size: nat) returns (body: Option<Bytes>)
    requires reader.Valid()
    modifies reader
    ensures reader.Valid()
    ensures body.None? ==> |old(reader.Rest())| < size
    ensures body.Some? ==> |body.value| == size && old(reader.Rest()) == body.value + reader.Rest()
  {
    ghost var rest := reader.Rest();
    var parts: Bytes := [];
    var remaining: nat := size;
    while remaining > 0
      invariant reader.Valid() && rest == parts + reader.Rest() && |parts| + remaining == size
    {
      var block := reader.Read(if remaining < READ_SIZE then remaining else READ_SIZE);
      if block == [] { return None; }
      Associative(parts, block, reader.Rest());
      parts, remaining := parts + block, remaining - |block|;
    }
    body := Some(parts);
  }

  /** A member's content, read block by block, and its padding. */
  method ReadBody(reader: Reader, size: nat) returns (body: Option<Bytes>)
    requires reader.Valid()
    modifies reader
    ensures reader.Valid()
    ensures body.Some? <==> |old(reader.Rest())| >= size + Padding(size)
    ensures body.Some? ==>
              body.value == old(reader.Rest())[..size] && reader.Rest() == old(reader.Rest())[size + Padding(size)..]
  {
    ghost var rest := reader.Rest();
    body := ReadContent(reader, size);
    if body.None? { return; }
    var padding := reader.Read(Padding(size));
    BodyAndPadding(rest, body.value, padding, reader.Rest());
    if |padding| != Padding(size) { return None; }
  }

  /** One member after its header: where it goes and what is in it. */
  method ReadMember(c: Codec, reader: Reader, header: Header, expected: map<string, Item>, seen: Contents)
    returns (out: Option<Contents>)
    requires reader.Valid()
    modifies reader
    ensures reader.Valid()
    ensures var taken := MemberOf(c, header, old(reader.Rest()), expected, seen);
            if out.None? then taken.None? else taken == Some(Taken(out.value, reader.Rest()))
  {
    if !(PREFIX <= header.name) { return None; }
    var path := header.name[|PREFIX|..];
    if !Relative(c, path) || path !in expected || path in seen { return None; }
    if header.size != expected[path].size || header.size < 0 { return None; }
    var body := ReadBody(reader, header.size);
    if body.None? || Sha256(body.value) != expected[path].sha256 { return None; }
    out := Some(seen[path := body.value]);
  }

  method ReadMembers(c: Codec, reader: Reader, expected: map<string, Item>) returns (files: Option<Contents>)
    requires reader.Valid()
    modifies reader
    ensures files == Members(c, old(reader.Rest()), expected, map[])
  {
    var seen: Contents := map[];
    while true
      invariant reader.Valid()
      invariant Members(c, old(reader.Rest()), expected, map[]) == Members(c, reader.Rest(), expected, seen)
      decreases |reader.Rest()|
    {
      var header := ReadHeader(c, reader);
      if header.Bad? { return None; }
      if header.Terminator? { return if seen.Keys == expected.Keys then Some(seen) else None; }
      var more := ReadMember(c, reader, header.header, expected, seen);
      if more.None? { return None; }
      seen := more.value;
    }
  }

  method ReadFromManifest(c: Codec, reader: Reader, size: nat, maxBytes: nat, maxFiles: nat, usable: Contents -> bool)
    returns (out: Restored)
    requires reader.Valid()
    modifies reader
    ensures out == FromManifest(c, old(reader.Rest()), size, maxBytes, maxFiles, usable)
  {
    var raw := ReadBody(reader, size);
    if raw.None? { return Corrupt; }
    var manifest := c.read(raw.value);
    if manifest.None? { return Corrupt; }
    var expected := ValidateManifest(c, manifest.value, maxBytes, maxFiles);
    if expected.None? { return Corrupt; }
    var files := ReadMembers(c, reader, expected.value);
    if files.None? || !usable(files.value) { return Corrupt; }
    out := Restored(manifest.value, files.value);
  }

  /** `_extract`. */
  method Extract(c: Codec, archive: Bytes, maxBytes: nat, maxFiles: nat, usable: Contents -> bool)
    returns (out: Restored)
    ensures out == Extracted(c, archive, maxBytes, maxFiles, usable)
  {
    if |archive| > Bound(maxBytes, maxFiles) { return Corrupt; }
    var reader := new Reader(archive);
    var first := ReadHeader(c, reader);
    if !first.Plain? { return Corrupt; }
    if first.header.name != MANIFEST_NAME || !(0 <= first.header.size <= MAX_MANIFEST) { return Corrupt; }
    out := ReadFromManifest(c, reader, first.header.size, maxBytes, maxFiles, usable);
  }

  // --------------------------------------------------------------- the writer

  function Member(header: Bytes, body: Bytes): Bytes { header + (body + Zeros(Padding(|body|))) }

  function FileHeader(item: Item): Header { Header(PREFIX + item.path, item.size, true) }

  predicate Written(c: Codec, files: seq<Item>) {
    forall i :: 0 <= i < |files| ==> c.encode(FileHeader(files[i])).Some?
  }

  predicate Sourced(files: seq<Item>, source: Contents) { forall i :: 0 <= i < |files| ==> Matches(files[i], source) }

  /** The members of the files, in order. */
  function Stream(c: Codec, files: seq<Item>, source: Contents): Bytes
    requires Written(c, files) && Sourced(files, source)
  {
    if files == [] then []
    else Member(c.encode(FileHeader(files[0])).value, source[files[0].path]) + Stream(c, files[1..], source)
  }

  lemma {:induction false} StreamSnoc(c: Codec, files: seq<Item>, item: Item, source: Contents)
    requires Written(c, files) && Sourced(files, source)
    requires c.encode(FileHeader(item)).Some? && Matches(item, source)
    ensures Written(c, files + [item]) && Sourced(files + [item], source)
    ensures Stream(c, files + [item], source) ==
              Stream(c, files, source) + Member(c.encode(FileHeader(item)).value, source[item.path])
    decreases |files|
  {
    var whole := files + [item];
    assert forall i :: 0 <= i < |whole| ==> whole[i] == if i < |files| then files[i] else item;
    if files == [] {
      assert whole[1..] == [];
    } else {
      assert whole[1..] == files[1..] + [item];
      StreamSnoc(c, files[1..], item, source);
    }
  }

  function ManifestHeader(size: nat): Header { Header(MANIFEST_NAME, size, true) }

  /** The zero blocks that fill the last record. */
  function Closing(size: nat): nat { 2 * BLOCK + (RECORD - (size + 2 * BLOCK) % RECORD) % RECORD }

  function Body(c: Codec, m: Manifest, source: Contents): Bytes
    requires Written(c, m.files) && Sourced(m.files, source) && c.encode(ManifestHeader(|c.render(m)|)).Some?
  {
    Member(c.encode(ManifestHeader(|c.render(m)|)).value, c.render(m)) + Stream(c, m.files, source)
  }

  /** The archive of a snapshot. */
  function Archived(c: Codec, m: Manifest, source: Contents): Bytes
    requires Written(c, m.files) && Sourced(m.files, source) && c.encode(ManifestHeader(|c.render(m)|)).Some?
  {
    Body(c, m, source) + Zeros(Closing(|Body(c, m, source)|))
  }

  /** The writing part of `backup`: every file is hashed again after it was copied, and a
      name or size no ustar header can hold ends it. */
  method Write(c: Codec, m: Manifest, source: Contents) returns (archive: Option<Bytes>)
    ensures archive.Some? <==>
              c.encode(ManifestHeader(|c.render(m)|)).Some? && |c.render(m)| <= MAX_MANIFEST && Written(c, m.files)
                  && Sourced(m.files, source)
    ensures archive.Some? ==> archive.value == Archived(c, m, source)
  {
    var raw := c.render(m);
    if |raw| > MAX_MANIFEST { return None; }
    var header := c.encode(ManifestHeader(|raw|));
    if header.None? { return None; }
    var out := Member(header.value, raw);
    for n := 0 to |m.files|
      invariant Written(c, m.files[..n]) && Sourced(m.files[..n], source)
      invariant out == Member(header.value, raw) + Stream(c, m.files[..n], source)
    {
      var item := m.files[n];
      assert m.files[..n + 1] == m.files[..n] + [item];
      var h := c.encode(FileHeader(item));
      if h.None? { return None; }
      if item.path !in source || |source[item.path]| != item.size || Sha256(source[item.path]) != item.sha256 {
        return None;
      }
      StreamSnoc(c, m.files[..n], item, source);
      out := out + Member(h.value, source[item.path]);
    }
    assert m.files[..|m.files|] == m.files;
    archive := Some(out + Zeros(Closing(|out|)));
  }

  // -------------------------------------------------------------- round trip

  lemma HeaderOfMember(c: Codec, h: Header, body: Bytes, rest: Bytes)
    requires Faithful(c) && c.encode(h).Some? && h.regular && h.size == |body|
    ensures var bytes := Member(c.encode(h).value, body) + rest;
            && HeaderOf(c, bytes) == Plain(h)
            && bytes[BLOCK..][..|body|] == body && |bytes[BLOCK..]| >= |body| + Padding(|body|)
            && bytes[BLOCK..][|body| + Padding(|body|)..] == rest
  {
    var raw := c.encode(h).value;
    var bytes := Member(raw, body) + rest;
    assert bytes == raw + (body + (Zeros(Padding(|body|)) + rest));
    Prefix(raw, body + (Zeros(Padding(|body|)) + rest));
    Prefix(body, Zeros(Padding(|body|)) + rest);
    assert bytes[BLOCK..] == (body + Zeros(Padding(|body|))) + rest;
    Prefix(body + Zeros(Padding(|body|)), rest);
  }

  /** The files collected one after the other. */
  function Collected(files: seq<Item>, source: Contents, seen: Contents): Contents
    requires Sourced(files, source)
  {
    if files == [] then seen else Collected(files[1..], source, seen[files[0].path := source[files[0].path]])
  }

  lemma {:induction false} MembersOfStream(c: Codec, files: seq<Item>, source: Contents, expected: map<string, Item>,
                                           seen: Contents, k: nat)
    requires Faithful(c) && Written(c, files) && Sourced(files, source) && k >= 2 * BLOCK
    requires forall i :: 0 <= i < |files| ==>
               Relative(c, files[i].path) && files[i].path in expected && expected[files[i].path] == files[i]
                   && files[i].path !in seen
    requires forall i, j :: 0 <= i < j < |files| ==> files[i].path != files[j].path
    ensures var all := Collected(files, source, seen);
            Members(c, Stream(c, files, source) + Zeros(k), expected, seen)
            == if all.Keys == expected.Keys then Some(all) else None
    decreases |files|
  {
    if files == [] {
      assert [] + Zeros(k) == Zeros(k);
      assert Zeros(k)[..BLOCK] == Zeros(BLOCK);
    } else {
      var item, body := files[0], source[files[0].path];
      var rest := Stream(c, files[1..], source) + Zeros(k);
      var bytes := Stream(c, files, source) + Zeros(k);
      assert bytes == Member(c.encode(FileHeader(item)).value, body) + rest;
      HeaderOfMember(c, FileHeader(item), body, rest);
      assert FileHeader(item).name[|PREFIX|..] == item.path;
      assert MemberOf(c, FileHeader(item), bytes[BLOCK..], expected, seen) ==
          Some(Taken(seen[item.path := body], rest));
      MembersOfStream(c, files[1..], source, expected, seen[item.path := body], k);
    }
  }

  lemma {:induction false} CollectedIs(files: seq<Item>, source: Contents, seen: Contents)
    requires Sourced(files, source)
    requires forall p :: p in seen ==> p in source && seen[p] == source[p]
    ensures var all := Collected(files, source, seen);
            && (forall p :: p in all <==> p in seen || Lists(files, p))
            && (forall p :: p in all ==> p in source && all[p] == source[p])
    decreases |files|
  {
    if files != [] {
      var next := seen[files[0].path := source[files[0].path]];
      CollectedIs(files[1..], source, next);
      forall p ensures Lists(files, p) <==> files[0].path == p || Lists(files[1..], p) { ListsCons(files, p); }
    }
  }

  /** The members of a snapshot, read against its own manifest, are its files. */
  lemma StreamReadBack(c: Codec, m: Manifest, source: Contents, maxBytes: nat, maxFiles: nat, k: nat)
    requires Faithful(c) && Acceptable(c, m, maxBytes, maxFiles) && Exactly(m, source)
    requires Written(c, m.files) && k >= 2 * BLOCK
    ensures Members(c, Stream(c, m.files, source) + Zeros(k), Indexed(m.files), map[]) == Some(source)
  {
    DistinctPaths(c, m, maxBytes, maxFiles);
    forall i | 0 <= i < |m.files|
      ensures Relative(c, m.files[i].path) && m.files[i].path in Indexed(m.files)
              && Indexed(m.files)[m.files[i].path] == m.files[i]
    {
      assert AllPaths(m)[i] == m.files[i].path;
      IndexedAt(m.files, i);
    }
    MembersOfStream(c, m.files, source, Indexed(m.files), map[], k);
    CollectedAll(m, source);
  }

  lemma CollectedAll(m: Manifest, source: Contents)
    requires Exactly(m, source)
    ensures Collected(m.files, source, map[]) == source && source.Keys == Indexed(m.files).Keys
  {
    CollectedIs(m.files, source, map[]);
    IndexedHas(m.files);
  }

  lemma {:induction false} StreamSize(c: Codec, files: seq<Item>, source: Contents)
    requires Faithful(c) && Written(c, files) && Sourced(files, source)
    ensures |Stream(c, files, source)| <= Sizes(files) + 1023 * |files|
    decreases |files|
  {
    if files != [] {
      var n := |files| - 1;
      assert files == files[..n] + [files[n]];
      StreamSnoc(c, files[..n], files[n], source);
      StreamSize(c, files[..n], source);
    }
  }

  lemma AcceptableWritable(c: Codec, m: Manifest, maxBytes: nat, maxFiles: nat)
    requires Faithful(c) && Told(c, m) && Acceptable(c, m, maxBytes, maxFiles) && Written(c, m.files)
    ensures |c.render(m)| <= 1024 + MAX_ENTRY * (|m.files| + |m.directories|)
  {
    forall i | 0 <= i < |m.files| ensures 0 <= m.files[i].size < MAX_MEMBER {
      assert c.encode(FileHeader(m.files[i])).Some?;
    }
    assert Writable(c, m);
  }

  /** The reader's size bound never excludes a snapshot: with three entries or more its
      allowance for them covers padding and the last record, and with fewer the manifest
      is far below its own bound. */
  lemma ArchiveFits(c: Codec, m: Manifest, source: Contents, maxBytes: nat, maxFiles: nat)
    requires Faithful(c) && Told(c, m) && Acceptable(c, m, maxBytes, maxFiles)
    requires Sourced(m.files, source) && Written(c, m.files)
    requires c.encode(ManifestHeader(|c.render(m)|)).Some? && |c.render(m)| <= MAX_MANIFEST
    ensures |Archived(c, m, source)| <= Bound(maxBytes, maxFiles)
  {
    StreamSize(c, m.files, source);
    AcceptableWritable(c, m, maxBytes, maxFiles);
    if maxFiles < 3 { assert MAX_ENTRY * (|m.files| + |m.directories|) <= MAX_ENTRY * 2; }
  }

  /** The manifest comes first, and the rest follows it. */
  lemma FirstMember(c: Codec, m: Manifest, source: Contents)
    requires Faithful(c) && Written(c, m.files) && Sourced(m.files, source)
    requires c.encode(ManifestHeader(|c.render(m)|)).Some?
    ensures var (raw, archive) := (c.render(m), Archived(c, m, source));
            && HeaderOf(c, archive) == Plain(ManifestHeader(|raw|))
            && archive[BLOCK..][..|raw|] == raw && |archive[BLOCK..]| >= |raw| + Padding(|raw|)
            && archive[BLOCK..][|raw| + Padding(|raw|)..] ==
                Stream(c, m.files, source) + Zeros(Closing(|Body(c, m, source)|))
  {
    var raw := c.render(m);
    var rest := Stream(c, m.files, source) + Zeros(Closing(|Body(c, m, source)|));
    assert Archived(c, m, source) == Member(c.encode(ManifestHeader(|raw|)).value, raw) + rest;
    HeaderOfMember(c, ManifestHeader(|raw|), raw, rest);
  }

  /** Past the bound and the first header it is all in what follows. */
  lemma FirstHeaderRead(c: Codec, archive: Bytes, size: nat, maxBytes: nat, maxFiles: nat, usable: Contents -> bool)
    requires |archive| <= Bound(maxBytes, maxFiles) && size <= MAX_MANIFEST
    requires HeaderOf(c, archive) == Plain(ManifestHeader(size))
    ensures |archive| >= BLOCK
    ensures Extracted(c, archive, maxBytes, maxFiles, usable)
            == FromManifest(c, archive[BLOCK..], size, maxBytes, maxFiles, usable)
  {
  }

  /** What is restored of an archive whose first member is a manifest and whose others,
      read against it, are the source. */
  lemma ReadBack(c: Codec, archive: Bytes, raw: Bytes, rest: Bytes, m: Manifest, source: Contents,
                 maxBytes: nat, maxFiles: nat, usable: Contents -> bool)
    requires Acceptable(c, m, maxBytes, maxFiles) && usable(source) && c.read(raw) == Some(m)
    requires |archive| <= Bound(maxBytes, maxFiles) && |raw| <= MAX_MANIFEST
    requires HeaderOf(c, archive) == Plain(ManifestHeader(|raw|)) && |archive[BLOCK..]| >= |raw| + Padding(|raw|)
    requires archive[BLOCK..][..|raw|] == raw && archive[BLOCK..][|raw| + Padding(|raw|)..] == rest
    requires Members(c, rest, Indexed(m.files), map[]) == Some(source)
    ensures Extracted(c, archive, maxBytes, maxFiles, usable) == Restored(m, source)
  {
    FirstHeaderRead(c, archive, |raw|, maxBytes, maxFiles, usable);
  }

  /** A snapshot, read back, is what was snapshot: for every manifest that may be
      restored, every content, every file size. */
  lemma RoundTrip(c: Codec, m: Manifest, source: Contents, maxBytes: nat, maxFiles: nat, usable: Contents -> bool)
    requires Faithful(c) && Told(c, m) && Acceptable(c, m, maxBytes, maxFiles) && Exactly(m, source) && usable(source)
    requires Written(c, m.files) && c.encode(ManifestHeader(|c.render(m)|)).Some? && |c.render(m)| <= MAX_MANIFEST
    ensures Extracted(c, Archived(c, m, source), maxBytes, maxFiles, usable) == Restored(m, source)
  {
    var k := Closing(|Body(c, m, source)|);
    var rest := Stream(c, m.files, source) + Zeros(k);
    ArchiveFits(c, m, source, maxBytes, maxFiles);
    FirstMember(c, m, source);
    StreamReadBack(c, m, source, maxBytes, maxFiles, k);
    ReadBack(c, Archived(c, m, source), c.render(m), rest, m, source, maxBytes, maxFiles, usable);
  }

  lemma OwnManifest(c: Codec, m: Manifest, source: Contents, maxBytes: nat, maxFiles: nat, usable: Contents -> bool)
    requires Faithful(c) && Told(c, m) && Written(c, m.files) && Sourced(m.files, source)
    requires c.encode(ManifestHeader(|c.render(m)|)).Some?
    ensures var out := Extracted(c, Archived(c, m, source), maxBytes, maxFiles, usable);
            out.Restored? ==> out.manifest == m && usable(out.files)
  {
    FirstMember(c, m, source);
  }

  lemma SameFiles(m: Manifest, a: Contents, b: Contents)
    requires Exactly(m, a) && Exactly(m, b)
    ensures a == b
  {
    forall p | p in a ensures p in b && a[p] == b[p] {
      var i :| 0 <= i < |m.files| && m.files[i].path == p;
      assert Matches(m.files[i], a) && Matches(m.files[i], b);
    }
    forall p | p in b ensures p in a { assert Lists(m.files, p); }
  }

  /** `backup`: what was written is read back before it is published, so an archive
      appears exactly if every name fits, nothing changed meanwhile, and the snapshot may
      be restored; and then a restore yields the snapshot. */
  method Backup(c: Codec, m: Manifest, source: Contents, maxBytes: nat, maxFiles: nat, usable: Contents -> bool)
    returns (archive: Option<Bytes>)
    requires Faithful(c) && Told(c, m) && forall p :: p in source <==> Lists(m.files, p)
    ensures archive.Some? <==>
              && Acceptable(c, m, maxBytes, maxFiles) && usable(source) && Sourced(m.files, source)
                  && Written(c, m.files)
              && c.encode(ManifestHeader(|c.render(m)|)).Some? && |c.render(m)| <= MAX_MANIFEST
    ensures archive.Some? ==> Extracted(c, archive.value, maxBytes, maxFiles, usable) == Restored(m, source)
  {
    archive := Write(c, m, source);
    if archive.None? { return; }
    OwnManifest(c, m, source, maxBytes, maxFiles, usable);
    AcceptedIsExact(c, archive.value, maxBytes, maxFiles, usable);
    if Acceptable(c, m, maxBytes, maxFiles) && usable(source) { RoundTrip(c, m, source, maxBytes, maxFiles, usable); }
    var out := Extract(c, archive.value, maxBytes, maxFiles, usable);
    if out.Corrupt? { return None; }
    SameFiles(m, out.files, source);
  }

  // --------------------------------------------------------------- a snapshot

  function OneFile(path: string, body: Bytes): Manifest {
    Manifest(FORMAT, [Item(path, |body|, Sha256(body))], [], |body|)
  }

  /** Encodings that know this one manifest, and the two headers of its archive. */
  function OneFileCodec(path: string, body: Bytes): Codec {
    var (m, raw: Bytes) := (OneFile(path, body), [123, 125]);
    var (first, second) := (ManifestHeader(2), FileHeader(m.files[0]));
    var (one: Bytes, two: Bytes) := ([1] + Zeros(BLOCK - 1), [2] + Zeros(BLOCK - 1));
    Codec(h => if h == first then Some(one) else if h == second then Some(two) else None,
          b => if b == one then Some(first) else if b == two then Some(second) else None,
          _ => raw, b => if b == raw then Some(m) else None, p => p, _ => true)
  }

  lemma OneFileEncoded(path: string, body: Bytes)
    requires |body| < MAX_MEMBER
    ensures var (c, m) := (OneFileCodec(path, body), OneFile(path, body));
            && Faithful(c) && Told(c, m) && Written(c, m.files)
            && c.encode(ManifestHeader(|c.render(m)|)).Some? && |c.render(m)| <= MAX_MANIFEST
  {
    var c := OneFileCodec(path, body);
    var (one: Bytes, two: Bytes) := ([1] + Zeros(BLOCK - 1), [2] + Zeros(BLOCK - 1));
    assert one[0] == 1 && two[0] == 2 && Zeros(BLOCK)[0] == 0;
    assert FileHeader(OneFile(path, body).files[0]).name[0] == 'd' && ManifestHeader(2).name[0] == 'm';
  }

  lemma OneFileAcceptable(path: string, body: Bytes)
    requires Safe(path)
    ensures var (c, m) := (OneFileCodec(path, body), OneFile(path, body));
            Acceptable(c, m, |body|, 1) && Exactly(m, map[path := body])
  {
    var m := OneFile(path, body);
    assert AllPaths(m) == [path];
    assert m.files[..0] == [] && Sizes(m.files) == |body|;
    assert m.files[0].path == path;
  }

  /** All of this can be met together: every snapshot of one file at a safe path, of any
      content a header can announce, is published and restored, even at the tightest
      limits. */
  method BackupOneFile(path: string, body: Bytes) returns (archive: Bytes)
    requires Safe(path) && |body| < MAX_MEMBER
    ensures Extracted(OneFileCodec(path, body), archive, |body|, 1, _ => true)
            == Restored(OneFile(path, body), map[path := body])
  {
    OneFileEncoded(path, body);
    OneFileAcceptable(path, body);
    var usable := (_: Contents) => true;
    var written := Backup(OneFileCodec(path, body), OneFile(path, body), map[path := body], |body|, 1, usable);
    archive := written.value;
  }

  /** One such file, so that none of it is about nothing. */
  lemma SomeFileIsSafe()
    ensures Safe("a")
  {
    Documents.SplitPlain("a");
  }
}
