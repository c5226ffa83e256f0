/** The checks a snapshot makes of the store's database before it is written and after
    it is restored. */
module SnapshotCheck {
  import opened Common
  import opened Paths
  import opened StoreModel
  import opened StoreInvariant
  import opened Store

  /** The declarative content of the check. */
  ghost predicate Sound(db: Db) {
    && (forall r :: r in db.versions ==> Verified(db.versions[r]) && db.versions[r].size <= MAX_FILE_BYTES)
    && (forall k :: k in db.chunks ==> BlockSizesOk(db.chunks[k]))
    && (forall k :: k in db.uploads && db.uploads[k].state.Receiving? ==>
         Tiles(Blocks(db.chunks, k), db.uploads[k].offset))
  }

  /** The rows, in offset order, follow each other without gap up to the offset. */
  ghost predicate Tiles(blocks: map<nat, Bytes>, offset: nat) {
    Assemble(blocks, 0).Some? && |Assemble(blocks, 0).value| == offset
  }

  method CheckVersions(versions: map<Id, Version>) returns (ok: bool)
    ensures ok <==> forall r :: r in versions ==> Verified(versions[r]) && versions[r].size <= MAX_FILE_BYTES
  {
    ok := true;
    var rest := versions.Keys;
    while rest != {}
      invariant rest <= versions.Keys
      invariant ok
           <==> forall r :: r in versions && r !in rest ==> Verified(versions[r]) && versions[r].size <= MAX_FILE_BYTES
      decreases |rest|
    {
      var r :| r in rest;
      var v := versions[r];
      if v.size > MAX_FILE_BYTES || |v.body| != v.size || Sha256(v.body) != v.sha256 {
        ok := false;
      }
      rest := rest - {r};
    }
  }

  method CheckRows(blocks: map<nat, Bytes>) returns (ok: bool)
    ensures ok <==> BlockSizesOk(blocks)
  {
    ok := true;
    var rest := blocks.Keys;
    while rest != {}
      invariant rest <= blocks.Keys
      invariant ok <==> forall k :: k in blocks && k !in rest ==> 1 <= |blocks[k]| <= MAX_CHUNK_BYTES
      decreases |rest|
    {
      var k :| k in rest;
      ok := ok && 1 <= |blocks[k]| <= MAX_CHUNK_BYTES;
      rest := rest - {k};
    }
  }

  /** One transfer: `actual` runs along the rows in offset order. */
  method CheckJournal(blocks: map<nat, Bytes>, offset: nat) returns (ok: bool)
    ensures ok <==> Tiles(blocks, offset)
  {
    var actual: nat := 0;
    var rest := blocks;
    while rest != map[]
      invariant Tiles(blocks, offset)
           <==> Assemble(rest, actual).Some? && actual + |Assemble(rest, actual).value| == offset
      decreases |rest|
    {
      var start := Least(rest);
      if start != actual { return false; }
      Fewer2(rest, start);
      actual, rest := actual + |rest[start]|, rest - {start};
    }
    ok := actual == offset;
  }

  /** All of it. */
  method Check(db: Db) returns (ok: bool)
    ensures ok <==> Sound(db)
  {
    ok := CheckVersions(db.versions);
    if !ok { return; }
    var keys := db.chunks.Keys;
    while keys != {}
      invariant keys <= db.chunks.Keys
      invariant forall k :: k in db.chunks && k !in keys ==> BlockSizesOk(db.chunks[k])
      decreases |keys|
    {
      var k :| k in keys;
      ok := CheckRows(db.chunks[k]);
      if !ok { return; }
      keys := keys - {k};
    }
    keys := set k | k in db.uploads && db.uploads[k].state.Receiving?;
    while keys != {}
      invariant forall k :: k in keys ==> k in db.uploads && db.uploads[k].state.Receiving?
      invariant forall k :: k in db.uploads && db.uploads[k].state.Receiving? && k !in keys ==>
                  Tiles(Blocks(db.chunks, k), db.uploads[k].offset)
      decreases |keys|
    {
      var k :| k in keys;
      ok := CheckJournal(Blocks(db.chunks, k), db.uploads[k].offset);
      if !ok { return; }
      keys := keys - {k};
    }
    ok := true;
  }

  lemma ValidIsSound(fold: Folding, db: Db)
    requires Valid(fold, db)
    ensures Sound(db)
  {
    hide Assemble, PathsUnambiguous, WithinLimits, OneTransferPerVersion, EveryPathHasHead, Collides;
    forall k | k in db.chunks ensures BlockSizesOk(db.chunks[k]) {
      assert UploadOk(db.versions, db.chunks, k, db.uploads[k]);
    }
  }

  /** Every store reached by transactions from the empty one passes. */
  lemma ReachableIsSound(fold: Folding, ops: seq<Op>)
    ensures Sound(Run(fold, EMPTY_DB, ops))
  {
    ReachableIsValid(fold, ops);
    ValidIsSound(fold, Run(fold, EMPTY_DB, ops));
  }
}
