/** The form of an archive, as a concatenation of pieces, and the reader as a decision
    whether a byte string has that form. */
module ArchiveFormat {
  import opened Common
  import opened Archive

  /** One member: its header block, its content, and what fills the last block. */
  datatype Piece = Piece(header: Bytes, body: Bytes, padding: Bytes)

  function BytesOf(p: Piece): Bytes { p.header + (p.body + p.padding) }

  function Joined(pieces: seq<Piece>): Bytes {
    if pieces == [] then [] else BytesOf(pieces[0]) + Joined(pieces[1..])
  }

  /** The header block names a regular file of the content's size; what fills up may hold
      anything. */
  predicate Announces(c: Codec, p: Piece, name: string) {
    && |p.header| == BLOCK && p.header != Zeros(BLOCK) && c.decode(p.header) == Some(Header(name, |p.body|, true))
    && |p.padding| < BLOCK && (|p.body| + |p.padding|) % BLOCK == 0
  }

  /** The pieces are members of expected files, each for a path of its own. */
  predicate MembersFit(c: Codec, pieces: seq<Piece>, paths: seq<string>, expected: map<string, Item>, seen: Contents) {
    && |paths| == |pieces|
    && (forall i :: 0 <= i < |pieces| ==>
          && Announces(c, pieces[i], PREFIX + paths[i]) && Relative(c, paths[i])
          && paths[i] in expected && paths[i] !in seen
          && |pieces[i].body| == expected[paths[i]].size && Sha256(pieces[i].body) == expected[paths[i]].sha256)
    && (forall i, j :: 0 <= i < j < |paths| ==> paths[i] != paths[j])
  }

  /** The contents, by path. */
  function Gathered(pieces: seq<Piece>, paths: seq<string>, seen: Contents): Contents requires |paths| == |pieces| {
    if pieces == [] then seen else Gathered(pieces[1..], paths[1..], seen[paths[0] := pieces[0].body])
  }

  lemma PaddingIs(size: nat, padding: nat)
    ensures padding == Padding(size) <==> padding < BLOCK && (size + padding) % BLOCK == 0
  {
  }

  lemma PieceRead(c: Codec, p: Piece, name: string, rest: Bytes)
    requires Announces(c, p, name)
    ensures var bytes := BytesOf(p) + rest;
            && HeaderOf(c, bytes) == Plain(Header(name, |p.body|, true))
            && |bytes[BLOCK..]| >= |p.body| + Padding(|p.body|)
            && bytes[BLOCK..][..|p.body|] == p.body && bytes[BLOCK..][|p.body| + Padding(|p.body|)..] == rest
  {
    var bytes := BytesOf(p) + rest;
    PaddingIs(|p.body|, |p.padding|);
    assert bytes == p.header + (p.body + (p.padding + rest));
    Prefix(p.header, p.body + (p.padding + rest));
    Prefix(p.body, p.padding + rest);
    assert bytes[BLOCK..] == (p.body + p.padding) + rest;
    Prefix(p.body + p.padding, rest);
  }

  /** Members in any order are read as what they hold. */
  lemma {:induction false} PiecesRead(c: Codec, pieces: seq<Piece>, paths: seq<string>, n: nat,
                                      expected: map<string, Item>, seen: Contents)
    requires MembersFit(c, pieces, paths, expected, seen) && n >= 2 * BLOCK
    ensures var all := Gathered(pieces, paths, seen);
            Members(c, Joined(pieces) + Zeros(n), expected, seen) ==
              if all.Keys == expected.Keys then Some(all) else None
    decreases |pieces|
  {
    if pieces == [] {
      assert [] + Zeros(n) == Zeros(n);
      assert Zeros(n)[..BLOCK] == Zeros(BLOCK);
    } else {
      var p, path := pieces[0], paths[0];
      var rest := Joined(pieces[1..]) + Zeros(n);
      var bytes := Joined(pieces) + Zeros(n);
      assert bytes == BytesOf(p) + rest;
      PieceRead(c, p, PREFIX + path, rest);
      assert (PREFIX + path)[|PREFIX|..] == path;
      assert MemberOf(c, Header(PREFIX + path, |p.body|, true), bytes[BLOCK..], expected, seen) ==
             Some(Taken(seen[path := p.body], rest));
      PiecesRead(c, pieces[1..], paths[1..], n, expected, seen[path := p.body]);
    }
  }

  /** A readable header and what follows it are a piece. */
  lemma FirstPiece(c: Codec, rest: Bytes, h: Header) returns (p: Piece)
    requires HeaderOf(c, rest) == Plain(h) && 0 <= h.size && |rest[BLOCK..]| >= h.size + Padding(h.size)
    ensures Announces(c, p, h.name) && |p.body| == h.size && p.body == rest[BLOCK..][..h.size]
    ensures rest == BytesOf(p) + rest[BLOCK..][h.size + Padding(h.size)..]
  {
    var after := rest[BLOCK..];
    p := Piece(rest[..BLOCK], after[..h.size], after[h.size..h.size + Padding(h.size)]);
    PaddingIs(h.size, |p.padding|);
    var k := h.size + Padding(h.size);
    assert p.body + p.padding == after[..k];
    assert after == after[..k] + after[k..];
    assert rest == p.header + after;
    Associative(p.header, after[..k], after[k..]);
  }

  lemma OneMorePiece(c: Codec, p: Piece, path: string, more: seq<Piece>, others: seq<string>,
                     expected: map<string, Item>, seen: Contents)
    requires Announces(c, p, PREFIX + path) && Relative(c, path) && path in expected && path !in seen
    requires |p.body| == expected[path].size && Sha256(p.body) == expected[path].sha256
    requires MembersFit(c, more, others, expected, seen[path := p.body])
    ensures MembersFit(c, [p] + more, [path] + others, expected, seen)
    ensures Gathered([p] + more, [path] + others, seen) == Gathered(more, others, seen[path := p.body])
    ensures Joined([p] + more) == BytesOf(p) + Joined(more)
  {
    hide Announces, Relative;
    var pieces, paths := [p] + more, [path] + others;
    assert pieces[1..] == more && paths[1..] == others;
    forall i | 0 <= i < |others| ensures others[i] != path { assert others[i] !in seen[path := p.body]; }
  }

  /** Whatever is read as members consists of such pieces. */
  lemma {:induction false} ReadPieces(c: Codec, rest: Bytes, expected: map<string, Item>, seen: Contents)
    returns (pieces: seq<Piece>, paths: seq<string>, n: nat)
    requires Members(c, rest, expected, seen).Some?
    ensures MembersFit(c, pieces, paths, expected, seen) && n >= 2 * BLOCK && rest == Joined(pieces) + Zeros(n)
    ensures Members(c, rest, expected, seen) == Some(Gathered(pieces, paths, seen))
    decreases |rest|
  {
    hide Announces, Relative, BytesOf, Padding;
    var header := HeaderOf(c, rest);
    if header.Terminator? {
      pieces, paths, n := [], [], |rest|;
      assert [] + Zeros(n) == rest;
    } else {
      var h := header.header;
      var path := h.name[|PREFIX|..];
      var taken := MemberOf(c, h, rest[BLOCK..], expected, seen).value;
      var p := FirstPiece(c, rest, h);
      assert h.name == PREFIX + path;
      var more, others, m := ReadPieces(c, taken.rest, expected, taken.seen);
      OneMorePiece(c, p, path, more, others, expected, seen);
      pieces, paths, n := [p] + more, [path] + others, m;
      Associative(BytesOf(p), Joined(more), Zeros(n));
    }
  }

  // ------------------------------------------------------------ whole archives

  /** An archive of these files: the manifest first, then a member for each file it lists, in
      any order, then zeros, two blocks at least. */
  ghost predicate ArchiveOf(c: Codec, archive: Bytes, first: Piece, pieces: seq<Piece>, paths: seq<string>, n: nat,
                            m: Manifest)
  {
    && archive == BytesOf(first) + (Joined(pieces) + Zeros(n)) && n >= 1024
    && Announces(c, first, "manifest.json") && |first.body| <= MAX_MANIFEST && c.read(first.body) == Some(m)
    && MembersFit(c, pieces, paths, Indexed(m.files), map[])
    && Gathered(pieces, paths, map[]).Keys == Indexed(m.files).Keys
  }

  /** An archive of this form is restored as its contents exactly if it is within the size
      bound, its manifest may be restored and its contents are usable. */
  lemma ArchiveRead(c: Codec, archive: Bytes, first: Piece, pieces: seq<Piece>, paths: seq<string>, n: nat, m: Manifest,
                    maxBytes: nat, maxFiles: nat, usable: Contents -> bool)
    requires ArchiveOf(c, archive, first, pieces, paths, n, m)
    ensures var files := Gathered(pieces, paths, map[]);
            Extracted(c, archive, maxBytes, maxFiles, usable) ==
              if |archive| <= Bound(maxBytes, maxFiles) && Acceptable(c, m, maxBytes, maxFiles) && usable(files)
              then Restored(m, files) else Corrupt
  {
    PieceRead(c, first, MANIFEST_NAME, Joined(pieces) + Zeros(n));
    PiecesRead(c, pieces, paths, n, Indexed(m.files), map[]);
  }

  /** Nothing else is restored. */
  lemma RestoredIsArchive(c: Codec, archive: Bytes, maxBytes: nat, maxFiles: nat, usable: Contents -> bool)
    requires Extracted(c, archive, maxBytes, maxFiles, usable).Restored?
    ensures exists first, pieces, paths, n ::
              && ArchiveOf(c, archive, first, pieces, paths, n,
                           Extracted(c, archive, maxBytes, maxFiles, usable).manifest)
              && Extracted(c, archive, maxBytes, maxFiles, usable).files == Gathered(pieces, paths, map[])
  {
    hide Announces, BytesOf, Padding, Relative, Acceptable;
    var h := HeaderOf(c, archive).header;
    var m := Extracted(c, archive, maxBytes, maxFiles, usable).manifest;
    var first := FirstPiece(c, archive, h);
    var pieces, paths, n := ReadPieces(c, archive[BLOCK..][h.size + Padding(h.size)..], Indexed(m.files), map[]);
    PiecesRead(c, pieces, paths, n, Indexed(m.files), map[]);
    assert ArchiveOf(c, archive, first, pieces, paths, n, m);
  }
}
