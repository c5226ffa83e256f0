/** A replica's path where nothing interferes: which of its heads it takes, and how it ends;
    and what closing a pending row leaves. */
module QuietPaths {
  import opened Common
  import opened Paths
  import opened StoreModel
  import opened StoreInvariant
  import opened Replication
  import opened StoreAnswers
  import opened PendingRows
  import opened QuietServer
  import opened SyncWorld

  /** A replica at one path: the file, the common version, the pending row. */
  datatype Spot = Spot(file: Option<Bytes>, base: Option<BaseRow>, row: Option<PendingRow>)

  function Got<V>(m: map<Path, V>, path: Path): Option<V> { if path in m then Some(m[path]) else None }

  function SpotAt(r: Replica, path: Path): Spot {
    Spot(Got(r.files, path), Got(r.base, path), Got(r.uploads, path))
  }

  function HeadsAt(heads: set<HeadInfo>, path: Path): set<HeadInfo> { set h | h in heads && h.path == path }

  function Digested(file: Option<Bytes>): Option<Digest> {
    if file.None? then None else Some(Sha256(file.value))
  }

  /** The one head has the inventoried content: it is acknowledged. */
  ghost predicate Acknowledges(h: HeadInfo, local: Option<FileEntry>) {
    local.Some? && local.value.sha256 == h.sha256
  }

  /** The one head is new, and the inventory found nothing at the path or the content of the
      common version: it is installed. */
  ghost predicate Overwrites(h: HeadInfo, local: Option<FileEntry>, base: Option<BaseRow>) {
    local.None? || (local.value.sha256 != h.sha256 && base.Some? && base.value.sha256 == local.value.sha256)
  }

  /** The path takes its head: there is one, it is acknowledged or installed, and the file is
      still what the inventory found. */
  ghost predicate Takes(heads: set<HeadInfo>, local: Option<FileEntry>, was: Spot) {
    exists h :: heads == {h} && (Acknowledges(h, local) || Overwrites(h, local, was.base))
                && Digested(was.file) == DigestOf(local)
  }

  /** Of several heads one is the local content: it is recorded. */
  ghost predicate Records(h: HeadInfo, local: Option<FileEntry>, was: Spot) {
    && local.Some? && h.sha256 == local.value.sha256 && h.size == local.value.size
    && Digested(was.file) == Some(h.sha256)
  }

  /** How a path ends. Taking its head it has the head's content and base and no pending row;
      among competing heads its own content may be recorded; else nothing is changed. */
  ghost predicate PathEnds(heads: set<HeadInfo>, versions: Versions, local: Option<FileEntry>, was: Spot, now: Spot) {
    if Takes(heads, local, was) then
      exists h :: heads == {h} && h.revision in versions
                  && now == Spot(Some(versions[h.revision].body), Some(BaseRow(h.revision, h.sha256)), None)
    else if |heads| > 1 && exists h :: h in heads && Records(h, local, was) then
      exists h :: h in heads && Records(h, local, was)
                  && now == Spot(was.file, Some(BaseRow(h.revision, h.sha256)), None)
    else now == was
  }

  function DigestOf(local: Option<FileEntry>): Option<Digest> {
    if local.None? then None else Some(local.value.sha256)
  }

  /** Nothing is changed at any other path. */
  ghost predicate OtherPaths(r: Replica, r': Replica, path: Path) {
    forall p :: p != path ==> SpotAt(r', p) == SpotAt(r, p)
  }

  /** The heads of which copies are fetched for the owner: the one head that is neither
      acknowledged nor installed, or of several those the local file does not have. */
  ghost function Competing(heads: set<HeadInfo>, local: Option<FileEntry>, base: Option<BaseRow>): set<HeadInfo> {
    if exists h :: heads == {h} then
      set h | h in heads && !Acknowledges(h, local) && !Overwrites(h, local, base)
    else set h | h in heads && DigestOf(local) != Some(h.sha256)
  }

  /** The content of each of these was fetched. */
  ghost predicate Copied(s: Sys, heads: set<HeadInfo>) {
    forall h :: h in heads ==>
      && h.revision in s.db.versions
      && Answer(Fetch(h.revision), Content(s.db.versions[h.revision].body)) in s.answers
  }

  lemma CopiedStays(s: Sys, s': Sys, heads: set<HeadInfo>)
    requires Copied(s, heads) && s'.db.versions == s.db.versions && s.answers <= s'.answers
    ensures Copied(s', heads)
  {
  }

  /** One path is brought to its end, and nothing else changes but closed transfers. */
  ghost predicate OnePathEnds(me: ReplicaId, s: Sys, s': Sys, path: Path, heads: set<HeadInfo>,
                              local: Option<FileEntry>) {
    && me in s.replicas && me in s'.replicas && SameContents(s.db, s'.db)
    && OtherPaths(s.replicas[me], s'.replicas[me], path)
    && PathEnds(heads, s.db.versions, local, SpotAt(s.replicas[me], path), SpotAt(s'.replicas[me], path))
    && Copied(s', Competing(heads, local, Got(s.replicas[me].base, path)))
  }

  ghost predicate TakesAt(me: ReplicaId, s: Sys, path: Path, heads: set<HeadInfo>, local: Option<FileEntry>) {
    me in s.replicas && Takes(heads, local, SpotAt(s.replicas[me], path))
  }

  lemma SameBytes(a: Bytes, b: Bytes)
    requires Sha256(a) == Sha256(b)
    ensures a == b
  {
  }

  /** The path took its one head, or was left as it was. */
  lemma SingleEnds(me: ReplicaId, s: Sys, s': Sys, path: Path, head: HeadInfo, local: Option<FileEntry>, ok: bool)
    requires me in s.replicas && me in s'.replicas && SameContents(s.db, s'.db)
    requires head.revision in s.db.versions && Sha256(s.db.versions[head.revision].body) == head.sha256
    requires Acknowledges(head, local) || Overwrites(head, local, Got(s.replicas[me].base, path))
    requires ok <==> Digested(Got(s.replicas[me].files, path)) == DigestOf(local)
    requires s'.replicas[me].files ==
               if ok && !Acknowledges(head, local) then s.replicas[me].files[path := s.db.versions[head.revision].body]
               else s.replicas[me].files
    requires s'.replicas[me].uploads == if ok then s.replicas[me].uploads - {path} else s.replicas[me].uploads
    requires s'.replicas[me].base ==
               if ok then s.replicas[me].base[path := BaseRow(head.revision, head.sha256)] else s.replicas[me].base
    ensures OnePathEnds(me, s, s', path, {head}, local)
    ensures ok <==> TakesAt(me, s, path, {head}, local)
  {
    if ok && Acknowledges(head, local) {
      SameBytes(s.replicas[me].files[path], s.db.versions[head.revision].body);
    }
    assert forall h :: {h} == {head} ==> h == head;
    assert Competing({head}, local, Got(s.replicas[me].base, path)) == {};
  }

  /** Among competing heads, one with the local content is recorded if there is one; files
      are left alone. */
  ghost predicate RecordedOne(me: ReplicaId, s: Sys, s': Sys, path: Path, heads: set<HeadInfo>,
                              local: Option<FileEntry>) {
    && me in s.replicas && me in s'.replicas
    && var r, r' := s.replicas[me], s'.replicas[me];
       && r'.files == r.files
       && if exists h :: h in heads && Records(h, local, SpotAt(r, path)) then
            exists h :: h in heads && Records(h, local, SpotAt(r, path))
                        && r'.base == r.base[path := BaseRow(h.revision, h.sha256)] && r'.uploads == r.uploads - {path}
          else r'.base == r.base && r'.uploads == r.uploads
  }

  lemma CompetingEnd(me: ReplicaId, s: Sys, s': Sys, path: Path, heads: set<HeadInfo>, local: Option<FileEntry>)
    requires RecordedOne(me, s, s', path, heads, local) && SameContents(s.db, s'.db) && |heads| != 1
    requires heads != {} && Copied(s', set h | h in heads && DigestOf(local) != Some(h.sha256))
    ensures OnePathEnds(me, s, s', path, heads, local) && !TakesAt(me, s, path, heads, local)
  {
    assert forall h: HeadInfo :: |{h}| == 1;
  }

  /** These paths were brought to their end, every other is as before, and nothing changed at
      the server but closed transfers. */
  ghost predicate PathsEnd(me: ReplicaId, s: Sys, s': Sys, files: map<Path, FileEntry>, heads: set<HeadInfo>,
                           paths: set<Path>) {
    && me in s.replicas && me in s'.replicas && SameContents(s.db, s'.db)
    && forall p :: if p in paths then
                     PathEnds(HeadsAt(heads, p), s.db.versions, Got(files, p), SpotAt(s.replicas[me], p),
                              SpotAt(s'.replicas[me], p))
                     && Copied(s', Competing(HeadsAt(heads, p), Got(files, p), Got(s.replicas[me].base, p)))
                   else SpotAt(s'.replicas[me], p) == SpotAt(s.replicas[me], p)
  }

  ghost predicate AllTake(me: ReplicaId, s: Sys, files: map<Path, FileEntry>, heads: set<HeadInfo>, paths: set<Path>) {
    forall p :: p in paths ==> TakesAt(me, s, p, HeadsAt(heads, p), Got(files, p))
  }

  function PathsOf(heads: set<HeadInfo>): set<Path> { set h | h in heads :: h.path }

  lemma NoPathYet(me: ReplicaId, s: Sys, files: map<Path, FileEntry>, heads: set<HeadInfo>)
    requires me in s.replicas
    ensures forall paths: set<Path> :: paths == {} ==>
              PathsEnd(me, s, s, files, heads, paths) && AllTake(me, s, files, heads, paths)
  {
  }

  lemma OneMorePath(me: ReplicaId, s: Sys, m: Sys, s': Sys, files: map<Path, FileEntry>, heads: set<HeadInfo>,
                    done: set<Path>, path: Path)
    requires PathsEnd(me, s, m, files, heads, done) && path !in done
    requires OnePathEnds(me, m, s', path, HeadsAt(heads, path), Got(files, path)) && m.answers <= s'.answers
    ensures PathsEnd(me, s, s', files, heads, done + {path})
    ensures AllTake(me, s, files, heads, done + {path}) <==>
              AllTake(me, s, files, heads, done) && TakesAt(me, m, path, HeadsAt(heads, path), Got(files, path))
  {
    SameBase(s.replicas[me], m.replicas[me], path);
    hide PathEnds, Takes, HeadsAt, SpotAt, Copied, Competing;
    assert SpotAt(m.replicas[me], path) == SpotAt(s.replicas[me], path);
    forall p | p in done
      ensures Copied(s', Competing(HeadsAt(heads, p), Got(files, p), Got(s.replicas[me].base, p)))
    {
      CopiedStays(m, s', Competing(HeadsAt(heads, p), Got(files, p), Got(s.replicas[me].base, p)));
    }
  }

  lemma SameBase(r: Replica, r': Replica, path: Path)
    ensures SpotAt(r', path) == SpotAt(r, path) ==> Got(r'.base, path) == Got(r.base, path)
  {
  }

  // ----------------------------------------------------------------- closing

  /** The common version a closed transfer leaves: its receipt's, or, if it was canceled, the
      one before. */
  function BaseAfter(uploads: Uploads, k: TransferKey, sha: Digest, before: Option<BaseRow>): Option<BaseRow>
    requires k in uploads
  {
    if uploads[k].state == Aborted || uploads[k].receipt.None? then before
    else Some(BaseRow(uploads[k].receipt.value.revision, sha))
  }

  /** The transfer of the row is over, nothing else changed at the server or in the folder,
      and its receipt, if there is one, became the base. */
  ghost predicate QuietlyClosed(c: Config, me: ReplicaId, s: Sys, s': Sys, path: Path, row: PendingRow) {
    var k := TransferKey(c.project, row.transfer);
    && me in s.replicas && me in s'.replicas && s'.replicas[me].files == s.replicas[me].files
    && s'.db == Closed(s.db, k) && k in s'.db.uploads && s'.db.uploads[k].state != Receiving
    && (forall p :: Got(s'.replicas[me].base, p) ==
          if p == path then BaseAfter(s'.db.uploads, k, row.sha256, Got(s.replicas[me].base, p))
          else Got(s.replicas[me].base, p))
  }

  /** The row's transfer is over at the server, and the base of the path is as that leaves it. */
  ghost predicate ClosedOut(c: Config, me: ReplicaId, s: Sys, s': Sys, path: Path, row: PendingRow)
    requires me in s.replicas && me in s'.replicas
  {
    var k := TransferKey(c.project, row.transfer);
    && k in s'.db.uploads && s'.db.uploads[k].state != Receiving
    && Got(s'.replicas[me].base, path) ==
         BaseAfter(s'.db.uploads, k, row.sha256, Got(s.replicas[me].base, path))
  }

  /** The transfer's row and chunks are the same. */
  predicate SameTransfer(a: Db, b: Db, k: TransferKey) {
    && (k in b.uploads <==> k in a.uploads) && (k in b.uploads ==> b.uploads[k] == a.uploads[k])
    && (k in b.chunks <==> k in a.chunks) && (k in b.chunks ==> b.chunks[k] == a.chunks[k])
  }

  lemma SameClosed(a: Db, b: Db, k: TransferKey)
    requires SameTransfer(a, b, k) && a.projects == b.projects
    ensures SameTransfer(Closed(a, k), Closed(b, k), k)
  {
  }

  /** The transfer of some row that is gone. */
  ghost predicate Gone(c: Config, before: map<Path, PendingRow>, after: map<Path, PendingRow>, k: TransferKey) {
    exists p :: p in before && p !in after && TransferKey(c.project, before[p].transfer) == k
  }

  /** Closing rows changed no file, version or head; every row that is gone was closed out,
      and no other base and no other transfer changed. */
  ghost predicate Reconciled(c: Config, me: ReplicaId, s: Sys, s': Sys) {
    && me in s.replicas && me in s'.replicas && s'.replicas[me].files == s.replicas[me].files
    && SameContents(s.db, s'.db)
    && (forall k :: SameTransfer(if Gone(c, s.replicas[me].uploads, s'.replicas[me].uploads, k) then Closed(s.db, k)
                                 else s.db, s'.db, k))
    && forall p :: if p in s.replicas[me].uploads && p !in s'.replicas[me].uploads
                   then ClosedOut(c, me, s, s', p, s.replicas[me].uploads[p])
                   else Got(s'.replicas[me].base, p) == Got(s.replicas[me].base, p)
  }

  lemma OneMoreClosed(c: Config, me: ReplicaId, s: Sys, m: Sys, s': Sys, path: Path)
    requires Reconciled(c, me, s, m) && c.project in s.db.projects && path in m.replicas[me].uploads
    requires path in s.replicas[me].uploads && m.replicas[me].uploads[path] == s.replicas[me].uploads[path]
    requires QuietlyClosed(c, me, m, s', path, s.replicas[me].uploads[path])
    requires s'.replicas[me].uploads == m.replicas[me].uploads - {path}
    ensures Reconciled(c, me, s, s')
  {
    var k := TransferKey(c.project, s.replicas[me].uploads[path].transfer);
    hide Closed;
    ClosedIs(m.db, k);
    forall p ensures if p in s.replicas[me].uploads && p !in s'.replicas[me].uploads
                     then ClosedOut(c, me, s, s', p, s.replicas[me].uploads[p])
                     else Got(s'.replicas[me].base, p) == Got(s.replicas[me].base, p)
    {
      if p != path && p in s.replicas[me].uploads && p !in s'.replicas[me].uploads {
        assert ClosedOut(c, me, s, m, p, s.replicas[me].uploads[p]);
      }
    }
    forall l ensures SameTransfer(if Gone(c, s.replicas[me].uploads, s'.replicas[me].uploads, l) then Closed(s.db, l)
                                  else s.db, s'.db, l)
    {
      OneMoreGone(c, me, s, m, s', path, l);
    }
  }

  lemma OneMoreGone(c: Config, me: ReplicaId, s: Sys, m: Sys, s': Sys, path: Path, l: TransferKey)
    requires me in s.replicas && me in m.replicas && me in s'.replicas && SameContents(s.db, m.db)
    requires path in s.replicas[me].uploads && path in m.replicas[me].uploads && c.project in s.db.projects
    requires SameTransfer(if Gone(c, s.replicas[me].uploads, m.replicas[me].uploads, l) then Closed(s.db, l) else s.db,
                          m.db, l)
    requires s'.db == Closed(m.db, TransferKey(c.project, s.replicas[me].uploads[path].transfer))
    requires s'.replicas[me].uploads == m.replicas[me].uploads - {path}
    ensures SameTransfer(if Gone(c, s.replicas[me].uploads, s'.replicas[me].uploads, l) then Closed(s.db, l)
                         else s.db, s'.db, l)
  {
    var k := TransferKey(c.project, s.replicas[me].uploads[path].transfer);
    ClosedIs(m.db, k);
    ClosedIs(s.db, k);
    if l == k {
      assert Gone(c, s.replicas[me].uploads, s'.replicas[me].uploads, l);
      if Gone(c, s.replicas[me].uploads, m.replicas[me].uploads, l) {
        SameClosed(Closed(s.db, l), m.db, l);
        ClosedTwice(s.db, l);
      } else {
        SameClosed(s.db, m.db, l);
      }
    } else {
      assert Gone(c, s.replicas[me].uploads, s'.replicas[me].uploads, l) <==>
             Gone(c, s.replicas[me].uploads, m.replicas[me].uploads, l);
    }
  }

  lemma NoneGone(c: Config, me: ReplicaId, s: Sys)
    requires me in s.replicas
    ensures Reconciled(c, me, s, s)
  {
  }
}
