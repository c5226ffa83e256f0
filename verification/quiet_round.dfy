/** A whole round where nothing interferes: what it makes of every path, and when it ends
    without an issue. */
module QuietRound {
  import opened Common
  import opened Paths
  import opened StoreModel
  import opened StoreInvariant
  import opened Replication
  import opened StoreAnswers
  import opened PendingRows
  import opened QuietServer
  import opened SyncWorld
  import opened QuietPaths
  import opened QuietUpload

  /** The path comes out of the round without an issue: its file is sent and every head it has
      is the common version; or it takes its head. */
  ghost predicate Fine(c: Config, me: ReplicaId, s: Sys, files: map<Path, FileEntry>, p: Path)
    requires me in s.replicas
  {
    var r, heads := s.replicas[me], HeadInfos(c, s.db);
    if p in ToSend(r, files, heads) then forall h :: h in HeadsAt(heads, p) ==> BaseOf(r, p) == Some(h.revision)
    else Takes(HeadsAt(heads, p), Got(files, p), SpotAt(r, p))
  }

  /** Every inventoried or remote path does. */
  ghost predicate AllFine(c: Config, me: ReplicaId, s: Sys, files: map<Path, FileEntry>) {
    && me in s.replicas
    && forall p :: p in files || p in PathsOf(HeadInfos(c, s.db)) ==> Fine(c, me, s, files, p)
  }

  /** A file that was sent is left with its bytes, a new head of the path as base, and no
      pending row. */
  ghost predicate OwnHead(c: Config, s: Sys, s': Sys, p: Path, data: Bytes, now: Spot) {
    exists revision ::
      && revision !in s.db.versions && Head(c.project, p, revision) in s'.db.heads
      && now == Spot(Some(data), Some(BaseRow(revision, Sha256(data))), None)
  }

  /** What the round makes of every path: a file to send is published in place of its base, and
      is the path's one head if it is fine; any other path keeps its heads and is brought to
      its end. */
  ghost predicate RoundEnds(c: Config, me: ReplicaId, s: Sys, s': Sys, files: map<Path, FileEntry>) {
    && me in s.replicas && me in s'.replicas && Grew(s.db.versions, s'.db.versions)
    && var r, r', heads := s.replicas[me], s'.replicas[me], HeadInfos(c, s.db);
       forall p ::
         if p in ToSend(r, files, heads) then
           && p in r.files && PathSent(c, s.db, s'.db, p, r.files[p], BaseOf(r, p))
           && (Fine(c, me, s, files, p) ==> OwnHead(c, s, s', p, r.files[p], SpotAt(r', p)))
         else
           && HeadsKept(c, s.db, s'.db, p)
           && PathEnds(HeadsAt(heads, p), s'.db.versions, Got(files, p), SpotAt(r, p), SpotAt(r', p))
           && Copied(s', Competing(HeadsAt(heads, p), Got(files, p), Got(r.base, p)))
  }

  ghost predicate HeadsRetained(c: Config, db: Db) {
    forall h: Head :: h in db.heads && h.project == c.project ==>
      IsVersionOf(db.versions, h.project, h.path, h.revision) && Verified(db.versions[h.revision])
  }

  /** Where nothing is sent the listing is as before. */
  lemma UnsentHeads(c: Config, me: ReplicaId, s: Sys, m: Sys, sending: set<Path>, p: Path)
    requires SentAll(c, me, s, m, sending) && p !in sending && HeadsRetained(c, s.db)
    ensures HeadsAt(HeadInfos(c, m.db), p) == HeadsAt(HeadInfos(c, s.db), p)
    ensures SpotAt(m.replicas[me], p) == SpotAt(s.replicas[me], p)
  {
    hide PathSent, HeadInfos;
    forall h: HeadInfo ensures h in HeadsAt(HeadInfos(c, m.db), p) <==> h in HeadsAt(HeadInfos(c, s.db), p) {
      InfosAre(c, m.db, h);
      InfosAre(c, s.db, h);
      if h.path == p {
        assert Head(c.project, p, h.revision) in m.db.heads <==> Head(c.project, p, h.revision) in s.db.heads;
      }
    }
  }

  /** Where a file was sent it is listed, beside the heads that were not its base. */
  lemma SentHeads(c: Config, me: ReplicaId, s: Sys, m: Sys, sending: set<Path>, p: Path) returns (own: HeadInfo)
    requires SentAll(c, me, s, m, sending) && p in sending && HeadsRetained(c, s.db)
    ensures p in s.replicas[me].files && own.path == p && own.revision !in s.db.versions
    ensures own.sha256 == Sha256(s.replicas[me].files[p])
    ensures Head(c.project, p, own.revision) in m.db.heads && own.revision in m.db.versions
    ensures m.db.versions[own.revision].body == s.replicas[me].files[p]
    ensures forall h :: h in HeadsAt(HeadInfos(c, m.db), p) <==>
              h == own || (h in HeadsAt(HeadInfos(c, s.db), p) && BaseOf(s.replicas[me], p) != Some(h.revision))
  {
    var data, base := s.replicas[me].files[p], BaseOf(s.replicas[me], p);
    assert PathSent(c, s.db, m.db, p, data, base);
    var revision :| revision !in s.db.versions && revision in m.db.versions
                    && m.db.versions[revision] == Version(c.project, p, Sha256(data), |data|, data)
                    && forall q :: Head(c.project, p, q) in m.db.heads <==>
                         q == revision || (Head(c.project, p, q) in s.db.heads && base != Some(q));
    own := HeadInfo(p, revision, Sha256(data), |data|);
    SentListed(c, s.db, m.db, p, own, base);
  }

  lemma SentListed(c: Config, db: Db, db': Db, p: Path, own: HeadInfo, base: Option<Id>)
    requires HeadsRetained(c, db) && Grew(db.versions, db'.versions) && own.path == p && own.revision !in db.versions
    requires own.revision in db'.versions && own.sha256 == db'.versions[own.revision].sha256
             && own.size == db'.versions[own.revision].size
    requires forall q :: Head(c.project, p, q) in db'.heads <==>
               q == own.revision || (Head(c.project, p, q) in db.heads && base != Some(q))
    ensures forall h :: h in HeadsAt(HeadInfos(c, db'), p) <==>
              h == own || (h in HeadsAt(HeadInfos(c, db), p) && base != Some(h.revision))
  {
    hide HeadInfos;
    forall h: HeadInfo
      ensures h in HeadsAt(HeadInfos(c, db'), p) <==>
                h == own || (h in HeadsAt(HeadInfos(c, db), p) && base != Some(h.revision))
    {
      InfosAre(c, db', h);
      InfosAre(c, db, h);
      if h.path == p && Head(c.project, p, h.revision) in db.heads {
        assert IsVersionOf(db.versions, c.project, p, h.revision);
      }
    }
  }

  lemma Listed0(heads: set<HeadInfo>, p: Path)
    ensures p in PathsOf(heads) <==> HeadsAt(heads, p) != {}
  {
    if h :| h in HeadsAt(heads, p) {}
    if p in PathsOf(heads) {
      var h :| h in heads && h.path == p;
      assert h in HeadsAt(heads, p);
    }
  }

  lemma OnlyOwn(heads: set<HeadInfo>, own: HeadInfo, local: Option<FileEntry>, was: Spot)
    requires own in heads && Acknowledges(own, local) && Digested(was.file) == DigestOf(local)
    ensures Takes(heads, local, was) <==> heads == {own}
  {
  }

  /** After the uploads a path that is sent takes its head exactly if its own is the only one. */
  lemma SentTakes(c: Config, me: ReplicaId, s: Sys, m: Sys, files: map<Path, FileEntry>, p: Path)
    requires me in s.replicas && SentAll(c, me, s, m, ToSend(s.replicas[me], files, HeadInfos(c, s.db)))
    requires HeadsRetained(c, s.db) && p in ToSend(s.replicas[me], files, HeadInfos(c, s.db))
    requires Digested(Got(s.replicas[me].files, p)) == Some(files[p].sha256)
    ensures Fine(c, me, s, files, p) <==>
              Takes(HeadsAt(HeadInfos(c, m.db), p), Got(files, p), SpotAt(m.replicas[me], p))
    ensures p in PathsOf(HeadInfos(c, m.db))
  {
    hide Takes, HeadInfos;
    var old_, new_ := HeadsAt(HeadInfos(c, s.db), p), HeadsAt(HeadInfos(c, m.db), p);
    var own := SentHeads(c, me, s, m, ToSend(s.replicas[me], files, HeadInfos(c, s.db)), p);
    hide SentAll, ToSend, SkipsUpload;
    SameFolder(c, me, s, m, ToSend(s.replicas[me], files, HeadInfos(c, s.db)));
    assert own in new_;
    Listed0(HeadInfos(c, m.db), p);
    OnlyOwn(new_, own, Got(files, p), SpotAt(m.replicas[me], p));
    OwnIsNew(c, s.db, own, p);
    if new_ == {own} {
      forall h | h in old_ ensures BaseOf(s.replicas[me], p) == Some(h.revision) { assert h in new_ ==> h == own; }
    }
  }

  lemma OwnIsNew(c: Config, db: Db, own: HeadInfo, p: Path)
    requires own.revision !in db.versions
    ensures own !in HeadsAt(HeadInfos(c, db), p)
  {
    InfosAre(c, db, own);
  }

  /** Any other path takes its head exactly as it would have before. */
  lemma UnsentTakes(c: Config, me: ReplicaId, s: Sys, m: Sys, files: map<Path, FileEntry>, p: Path)
    requires me in s.replicas && SentAll(c, me, s, m, ToSend(s.replicas[me], files, HeadInfos(c, s.db)))
    requires HeadsRetained(c, s.db) && p !in ToSend(s.replicas[me], files, HeadInfos(c, s.db))
    ensures Fine(c, me, s, files, p) <==>
              Takes(HeadsAt(HeadInfos(c, m.db), p), Got(files, p), SpotAt(m.replicas[me], p))
    ensures p in PathsOf(HeadInfos(c, m.db)) <==> p in PathsOf(HeadInfos(c, s.db))
    ensures p in files ==> p in PathsOf(HeadInfos(c, s.db))
  {
    hide Takes, HeadInfos;
    UnsentHeads(c, me, s, m, ToSend(s.replicas[me], files, HeadInfos(c, s.db)), p);
    Listed0(HeadInfos(c, s.db), p);
    Listed0(HeadInfos(c, m.db), p);
    hide SentAll;
    if p in files {
      assert SkipsUpload(files[p], HeadsAt(HeadInfos(c, s.db), p), Got(s.replicas[me].base, p));
    }
  }

  /** There is no issue exactly if every path is fine. */
  lemma FineTakes(c: Config, me: ReplicaId, s: Sys, m: Sys, files: map<Path, FileEntry>)
    requires me in s.replicas && SentAll(c, me, s, m, ToSend(s.replicas[me], files, HeadInfos(c, s.db)))
    requires HeadsRetained(c, s.db) && CanSend(c, me, s, files, HeadInfos(c, s.db))
    ensures var heads := HeadInfos(c, m.db);
            AllTake(me, m, files, heads, PathsOf(heads)) <==> AllFine(c, me, s, files)
  {
    var heads := HeadInfos(c, m.db);
    SameFolder(c, me, s, m, ToSend(s.replicas[me], files, HeadInfos(c, s.db)));
    forall p
      ensures Fine(c, me, s, files, p) <==> Takes(HeadsAt(heads, p), Got(files, p), SpotAt(m.replicas[me], p))
      ensures p in PathsOf(heads) <==> p in files || p in PathsOf(HeadInfos(c, s.db))
    {
      hide SentAll, Sendable, Fine, Takes, SkipsUpload, HeadInfos, SpotAt;
      if p in ToSend(s.replicas[me], files, HeadInfos(c, s.db)) {
        SentTakes(c, me, s, m, files, p);
      } else {
        UnsentTakes(c, me, s, m, files, p);
      }
    }
    hide SentAll, Sendable, Fine, Takes, SkipsUpload, HeadInfos, SpotAt, CanSend, HeadsRetained, PathsOf, ToSend;
    assert forall p :: TakesAt(me, m, p, HeadsAt(heads, p), Got(files, p)) <==> Fine(c, me, s, files, p);
  }

  /** A sent path after both passes. */
  lemma SentEnds(c: Config, me: ReplicaId, s: Sys, m: Sys, s': Sys, files: map<Path, FileEntry>, p: Path)
    requires me in s.replicas && SentAll(c, me, s, m, ToSend(s.replicas[me], files, HeadInfos(c, s.db)))
    requires HeadsRetained(c, s.db) && p in ToSend(s.replicas[me], files, HeadInfos(c, s.db))
    requires Digested(Got(s.replicas[me].files, p)) == Some(files[p].sha256)
    requires PathsEnd(me, m, s', files, HeadInfos(c, m.db), PathsOf(HeadInfos(c, m.db)))
    ensures p in s.replicas[me].files
    ensures PathSent(c, s.db, s'.db, p, s.replicas[me].files[p], BaseOf(s.replicas[me], p))
    ensures Fine(c, me, s, files, p) ==> OwnHead(c, s, s', p, s.replicas[me].files[p], SpotAt(s'.replicas[me], p))
  {
    var heads := HeadsAt(HeadInfos(c, m.db), p);
    var data := s.replicas[me].files[p];
    SentTakes(c, me, s, m, files, p);
    var own := SentHeads(c, me, s, m, ToSend(s.replicas[me], files, HeadInfos(c, s.db)), p);
    assert PathSent(c, s.db, m.db, p, data, BaseOf(s.replicas[me], p));
    hide SentAll, ToSend, HeadInfos, Fine, Takes, SpotAt, HeadsAt;
    assert PathEnds(heads, m.db.versions, Got(files, p), SpotAt(m.replicas[me], p), SpotAt(s'.replicas[me], p));
    if Fine(c, me, s, files, p) {
      var h :| heads == {h} && h.revision in m.db.versions
               && SpotAt(s'.replicas[me], p) ==
                    Spot(Some(m.db.versions[h.revision].body), Some(BaseRow(h.revision, h.sha256)), None);
      assert h == own;
    }
  }

  /** Any other path after both passes. */
  lemma UnsentEnds(c: Config, me: ReplicaId, s: Sys, m: Sys, s': Sys, files: map<Path, FileEntry>, p: Path)
    requires me in s.replicas && SentAll(c, me, s, m, ToSend(s.replicas[me], files, HeadInfos(c, s.db)))
    requires HeadsRetained(c, s.db) && p !in ToSend(s.replicas[me], files, HeadInfos(c, s.db))
    requires PathsEnd(me, m, s', files, HeadInfos(c, m.db), PathsOf(HeadInfos(c, m.db)))
    ensures HeadsKept(c, s.db, s'.db, p)
    ensures PathEnds(HeadsAt(HeadInfos(c, s.db), p), s'.db.versions, Got(files, p), SpotAt(s.replicas[me], p),
                     SpotAt(s'.replicas[me], p))
    ensures Copied(s', Competing(HeadsAt(HeadInfos(c, s.db), p), Got(files, p), Got(s.replicas[me].base, p)))
  {
    SameFolder(c, me, s, m, ToSend(s.replicas[me], files, HeadInfos(c, s.db)));
    UnsentHeads(c, me, s, m, ToSend(s.replicas[me], files, HeadInfos(c, s.db)), p);
    assert HeadsKept(c, s.db, m.db, p);
    hide SentAll, ToSend, HeadInfos, SpotAt, HeadsAt, Competing;
    Listed0(HeadInfos(c, m.db), p);
    if p !in PathsOf(HeadInfos(c, m.db)) {
      NoHeadsEnd(m.db.versions, Got(files, p), SpotAt(m.replicas[me], p));
      NoCompeting(Got(files, p), Got(s.replicas[me].base, p));
    }
  }

  lemma NoHeadsEnd(versions: Versions, local: Option<FileEntry>, was: Spot)
    ensures PathEnds({}, versions, local, was, was)
  {
    assert forall h: HeadInfo :: h in {h};
  }

  lemma NoCompeting(local: Option<FileEntry>, base: Option<BaseRow>)
    ensures Competing({}, local, base) == {}
  {
  }

  lemma RoundIs(c: Config, me: ReplicaId, s: Sys, m: Sys, s': Sys, files: map<Path, FileEntry>)
    requires HeadsRetained(c, s.db) && CanSend(c, me, s, files, HeadInfos(c, s.db))
    requires SentAll(c, me, s, m, ToSend(s.replicas[me], files, HeadInfos(c, s.db)))
    requires PathsEnd(me, m, s', files, HeadInfos(c, m.db), PathsOf(HeadInfos(c, m.db)))
    ensures RoundEnds(c, me, s, s', files)
  {
    var r, r', heads := s.replicas[me], s'.replicas[me], HeadInfos(c, s.db);
    assert Grew(s.db.versions, m.db.versions) && m.db.versions == s'.db.versions;
    assert forall p :: p in ToSend(r, files, heads) ==> Digested(Got(r.files, p)) == Some(files[p].sha256);
    hide SentAll, PathsEnd, CanSend, Fine, OwnHead, PathSent, HeadsKept, PathEnds, HeadsRetained, ToSend, HeadInfos,
         SpotAt, HeadsAt, Copied, Competing;
    forall p
      ensures if p in ToSend(r, files, heads) then
                && p in r.files && PathSent(c, s.db, s'.db, p, r.files[p], BaseOf(r, p))
                && (Fine(c, me, s, files, p) ==> OwnHead(c, s, s', p, r.files[p], SpotAt(r', p)))
              else
                && HeadsKept(c, s.db, s'.db, p)
                && PathEnds(HeadsAt(heads, p), s'.db.versions, Got(files, p), SpotAt(r, p), SpotAt(r', p))
                && Copied(s', Competing(HeadsAt(heads, p), Got(files, p), Got(r.base, p)))
    {
      if p in ToSend(r, files, heads) {
        SentEnds(c, me, s, m, s', files, p);
      } else {
        UnsentEnds(c, me, s, m, s', files, p);
      }
    }
  }

  /** The folder and the server agree on a path: it has one head, whose content is at the path
      and whose revision is the common version; nothing is pending. */
  ghost predicate InStep(c: Config, db: Db, now: Spot, p: Path) {
    exists revision ::
      && (forall q :: Head(c.project, p, q) in db.heads <==> q == revision) && revision in db.versions
      && now == Spot(Some(db.versions[revision].body), Some(BaseRow(revision, db.versions[revision].sha256)), None)
  }

  /** A head of a retained version is listed. */
  lemma HeadListed(c: Config, db: Db, p: Path, q: Id) returns (h: HeadInfo)
    requires HeadsRetained(c, db) && Head(c.project, p, q) in db.heads
    ensures h in HeadsAt(HeadInfos(c, db), p) && h.revision == q
  {
    hide HeadInfos;
    assert IsVersionOf(db.versions, c.project, p, q);
    h := HeadInfo(p, q, db.versions[q].sha256, db.versions[q].size);
    InfosAre(c, db, h);
  }

  lemma SentInStep(c: Config, s: Sys, s': Sys, p: Path, data: Bytes, base: Option<Id>, now: Spot)
    requires HeadsRetained(c, s.db) && PathSent(c, s.db, s'.db, p, data, base) && OwnHead(c, s, s', p, data, now)
    requires forall h :: h in HeadsAt(HeadInfos(c, s.db), p) ==> base == Some(h.revision)
    ensures InStep(c, s'.db, now, p)
  {
    var own :| own !in s.db.versions && Head(c.project, p, own) in s'.db.heads
               && now == Spot(Some(data), Some(BaseRow(own, Sha256(data))), None);
    var revision :| revision !in s.db.versions && revision in s'.db.versions
                    && s'.db.versions[revision] == Version(c.project, p, Sha256(data), |data|, data)
                    && forall q :: Head(c.project, p, q) in s'.db.heads <==>
                         q == revision || (Head(c.project, p, q) in s.db.heads && base != Some(q));
    hide HeadsAt, HeadInfos;
    forall q | Head(c.project, p, q) in s.db.heads ensures base == Some(q) && q in s.db.versions {
      var h := HeadListed(c, s.db, p, q);
      assert IsVersionOf(s.db.versions, c.project, p, q);
    }
    assert own == revision;
    assert forall q :: Head(c.project, p, q) in s'.db.heads <==> q == revision;
  }

  lemma TakenInStep(c: Config, s: Sys, s': Sys, local: Option<FileEntry>, was: Spot, now: Spot, p: Path)
    requires HeadsRetained(c, s.db) && HeadsKept(c, s.db, s'.db, p) && Grew(s.db.versions, s'.db.versions)
    requires Takes(HeadsAt(HeadInfos(c, s.db), p), local, was)
    requires PathEnds(HeadsAt(HeadInfos(c, s.db), p), s'.db.versions, local, was, now)
    ensures InStep(c, s'.db, now, p)
  {
    var heads := HeadsAt(HeadInfos(c, s.db), p);
    var h :| heads == {h} && h.revision in s'.db.versions
             && now == Spot(Some(s'.db.versions[h.revision].body), Some(BaseRow(h.revision, h.sha256)), None);
    assert h in heads && h.path == p;
    InfosAre(c, s.db, h);
    hide HeadsAt, HeadInfos, Takes;
    forall q ensures Head(c.project, p, q) in s'.db.heads <==> q == h.revision {
      assert Head(c.project, p, q) in s'.db.heads <==> Head(c.project, p, q) in s.db.heads;
      if Head(c.project, p, q) in s.db.heads { var g := HeadListed(c, s.db, p, q); }
    }
  }

  /** After a round without an issue the folder and the server agree on every inventoried and
      every remote path; what was sent is the file's own content. */
  lemma FineRound(c: Config, me: ReplicaId, s: Sys, s': Sys, files: map<Path, FileEntry>, p: Path)
    requires RoundEnds(c, me, s, s', files) && AllFine(c, me, s, files) && HeadsRetained(c, s.db)
    requires p in files || p in PathsOf(HeadInfos(c, s.db))
    ensures InStep(c, s'.db, SpotAt(s'.replicas[me], p), p)
    ensures p in ToSend(s.replicas[me], files, HeadInfos(c, s.db)) ==>
              Got(s'.replicas[me].files, p) == Got(s.replicas[me].files, p)
  {
    var r, r', heads := s.replicas[me], s'.replicas[me], HeadInfos(c, s.db);
    assert Fine(c, me, s, files, p);
    hide HeadsRetained, ToSend, HeadInfos, PathSent, PathEnds, Takes, HeadsAt, HeadsKept;
    if p in ToSend(r, files, heads) {
      SentInStep(c, s, s', p, r.files[p], BaseOf(r, p), SpotAt(r', p));
    } else {
      TakenInStep(c, s, s', Got(files, p), SpotAt(r, p), SpotAt(r', p), p);
    }
  }

  /** A replica that has nothing takes everything: its first round is without an issue exactly
      if every remote path has one head. */
  lemma FirstRound(c: Config, me: ReplicaId, s: Sys)
    requires me in s.replicas && s.replicas[me].files == map[] && s.replicas[me].base == map[]
    requires WithinLimits(s.db.versions, s.db.uploads)
    ensures CanSend(c, me, s, map[], HeadInfos(c, s.db))
    ensures AllFine(c, me, s, map[]) <==>
              forall p :: p in PathsOf(HeadInfos(c, s.db)) ==> exists h :: HeadsAt(HeadInfos(c, s.db), p) == {h}
  {
    assert NewSizes(c, s.db, s.replicas[me], {}) == map[];
    assert ToSend(s.replicas[me], map[], HeadInfos(c, s.db)) == {};
    hide HeadInfos, HeadsAt, PathsOf;
    forall p ensures Fine(c, me, s, map[], p) <==> exists h :: HeadsAt(HeadInfos(c, s.db), p) == {h} {
      if h :| HeadsAt(HeadInfos(c, s.db), p) == {h} {
        assert Overwrites(h, None, SpotAt(s.replicas[me], p).base);
      }
    }
  }
}
