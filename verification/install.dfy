/** Replacing one local file while its user keeps working on it. Every file system
    call may be preceded by moves of the user and may fail; the replacement renames
    the old file into the recovery area, publishes the new one by exclusive link and
    links the old one back if the pathname is free at the end. */
module Installation {
  import opened Common

  type Inode = nat

  /** What the user does to the pathname, or to a file held open. */
  datatype Move =
    | Write(body: Bytes)                  // in place, creating the file if absent
    | Replace(body: Bytes)                // save by replacing the file
    | Delete
    | Scribble(inode: Inode, body: Bytes) // through a descriptor opened earlier

  /** What happens before one call, and whether the call then fails. */
  datatype Gap = Gap(moves: seq<Move>, fails: bool)

  datatype InstallResult = Installed | Refused | Vanished | ConcurrentEdit | Deferred | OsFailure

  /** The pathname, the private temporary name, the recovery area and the inodes; and
      an account of the user's files: what each holds, which the user removed, what the
      user last left at the pathname, and whether the user touched it since the client
      last moved it. */
  datatype Disk = Disk(target: Option<Inode>, temporary: Option<Inode>, recovery: map<string, Inode>,
                       contents: map<Inode, Bytes>, unused: Inode,
                       userFiles: map<Inode, Bytes>, removed: set<Inode>,
                       lastLeft: Option<Inode>, touched: bool)

  /** Call number n fails; a call past the end of the schedule does not. */
  predicate FailsAt(schedule: seq<Gap>, n: nat) { n < |schedule| && schedule[n].fails }

  predicate Quiet(schedule: seq<Gap>) { forall g :: g in schedule ==> g.moves == [] }

  /** The calls made from one on to before another: none of them failed, except the last
      one if so said. */
  predicate Ran(schedule: seq<Gap>, from: nat, to: nat, failed: bool) {
    && from <= to && (failed ==> from < to)
    && forall k: nat :: from <= k < to ==> (FailsAt(schedule, k) <==> failed && k == to - 1)
  }

  /** Dropping the temporary name and, after a rename, linking the old file back both go
      through, these being the calls from the given one on. */
  predicate CleanUp(schedule: seq<Gap>, next: nat, renamed: bool) {
    !FailsAt(schedule, next) && (renamed ==> !FailsAt(schedule, next + 1))
  }

  /** The number of calls a body that reaches the end makes. */
  function Calls(renamed: bool): nat { if renamed then 8 else 5 }

  /** How the part before the clean-up can end, after how many calls: each way of
      stopping has its place, and only a failing call is an operating system failure. */
  predicate Accounts(body: InstallResult, used: nat, renamed: bool, published: bool) {
    && (published <==> body.Installed? || (body.OsFailure? && used == Calls(renamed)))
    && match body
       case Installed => used == Calls(renamed)
       case Refused => used == 1 && !renamed
       case Vanished => used == 3 && !renamed
       case ConcurrentEdit => used == 5 && renamed
       case Deferred => used == Calls(renamed) - 1
       case OsFailure => used <= Calls(renamed)
  }

  predicate Recovered(recovery: map<string, Inode>, i: Inode) {
    exists n :: n in recovery && recovery[n] == i
  }

  /** No file of the user is lost or altered: each is at the pathname, in the recovery
      area, or removed by the user; with the bytes the user gave it. */
  predicate Conserved(d: Disk) {
    forall i :: i in d.userFiles ==>
      && i in d.contents && d.contents[i] == d.userFiles[i]
      && (d.target == Some(i) || i in d.removed || Recovered(d.recovery, i))
  }

  predicate Linked(d: Disk) {
    && (forall i :: i in d.contents ==> i < d.unused)
    && (d.target.Some? ==> d.target.value in d.contents)
    && (d.temporary.Some? ==> d.temporary.value in d.contents)
    && (forall n :: n in d.recovery ==> d.recovery[n] in d.contents)
  }

  predicate Sound(d: Disk) { Conserved(d) && Linked(d) }

  /** The pathname is as the caller expects: absent, or with the expected digest. */
  predicate Expected(d: Disk, expected: Option<Digest>) requires Linked(d) {
    if d.target.None? then expected.None? else expected == Some(Sha256(d.contents[d.target.value]))
  }

  /** With no user about: refused exactly if not as expected, else stopped only by a
      failing call, and the old file is taken by the fourth. */
  predicate Unattended(before: Disk, expected: Option<Digest>, body: InstallResult, used: nat, taken: Option<Inode>)
    requires Linked(before)
  {
    && (body.Refused? || (body.OsFailure? && used == 1) || Expected(before, expected))
    && (Expected(before, expected) ==> body.Installed? || body.OsFailure?)
    && taken == if Expected(before, expected) && used >= 4 then before.target else None
  }

  /** The new file exists and is nowhere but at its private name. */
  predicate Withheld(d: Disk) {
    && d.temporary.Some? && d.temporary.value in d.contents
    && d.temporary.value !in d.userFiles && d.target != d.temporary
  }

  /** At the pathname is a file that did not exist before, unknown to the user, with
      the given content. */
  predicate Carries(before: Disk, d: Disk, data: Bytes) {
    && d.target.Some? && d.target.value !in before.contents && d.target.value !in d.userFiles
    && d.target.value in d.contents && d.contents[d.target.value] == data
  }

  function Given(d: Disk, i: Inode, body: Bytes): Disk {
    d.(contents := d.contents[i := body], userFiles := d.userFiles[i := body])
  }

  function Dropped(d: Disk): Disk {
    d.(removed := d.removed + if d.target.Some? then {d.target.value} else {}, target := None)
  }

  function Created(d: Disk, body: Bytes): Disk {
    Given(d, d.unused, body).(target := Some(d.unused), unused := d.unused + 1)
  }

  function Left(d: Disk): Disk { d.(touched := true, lastLeft := d.target) }

  function Moved(d: Disk, m: Move): Disk {
    match m
    case Write(body) => Left(if d.target.None? then Created(d, body) else Given(d, d.target.value, body))
    case Replace(body) => Left(Created(Dropped(d), body))
    case Delete => Left(Dropped(d))
    case Scribble(i, body) => if i in d.userFiles then Given(d, i, body) else d
  }

  /** What no user can do: reach the private names or a file never published, lose
      track of a file, or change the pathname without touching it. */
  predicate UserOnly(d: Disk, d': Disk) {
    && d'.temporary == d.temporary && d'.recovery == d.recovery
    && (d.touched ==> d'.touched)
    && (!d'.touched ==> d'.target == d.target && d'.lastLeft == d.lastLeft)
    && (d.target == d.lastLeft ==> d'.target == d'.lastLeft)
    && (forall i :: i in d.contents && i !in d.userFiles && (d.target != Some(i) || !d'.touched) ==>
          && i in d'.contents && d'.contents[i] == d.contents[i] && i !in d'.userFiles
          && (d.target != Some(i) ==> d'.target != Some(i)))
    && (forall i :: i in d.contents ==> i in d'.contents)
  }

  lemma GivenSound(d: Disk, i: Inode, body: Bytes)
    requires Sound(d) && (d.target == Some(i) || i in d.userFiles)
    ensures Sound(Given(d, i, body))
  {
    var d' := Given(d, i, body);
    assert i in d.contents;
    forall j | j in d'.userFiles
      ensures j in d'.contents && d'.contents[j] == d'.userFiles[j]
      ensures d'.target == Some(j) || j in d'.removed || Recovered(d'.recovery, j)
    {
      assert j == i || j in d.userFiles;
    }
  }

  lemma DroppedSound(d: Disk)
    requires Sound(d)
    ensures Sound(Dropped(d))
  {
  }

  lemma CreatedSound(d: Disk, body: Bytes)
    requires Sound(d) && d.target.None?
    ensures Sound(Created(d, body))
  {
    var d' := Created(d, body);
    forall j | j in d'.userFiles
      ensures j in d'.contents && d'.contents[j] == d'.userFiles[j]
      ensures d'.target == Some(j) || j in d'.removed || Recovered(d'.recovery, j)
    {
      assert j == d.unused || j in d.userFiles;
    }
  }

  lemma MovePrivate(d: Disk, m: Move)
    requires Sound(d)
    ensures UserOnly(d, Moved(d, m))
  {
  }

  /** A move loses no file and reaches nothing private. */
  lemma MoveSound(d: Disk, m: Move)
    requires Sound(d)
    ensures Sound(Moved(d, m)) && UserOnly(d, Moved(d, m))
  {
    MovePrivate(d, m);
    match m
    case Write(body) =>
      if d.target.None? { CreatedSound(d, body); } else { GivenSound(d, d.target.value, body); }
    case Replace(body) =>
      DroppedSound(d);
      CreatedSound(Dropped(d), body);
    case Delete => DroppedSound(d);
    case Scribble(i, body) => if i in d.userFiles { GivenSound(d, i, body); }
  }

  /** No call of a complete installation fails, clean-up included. */
  predicate NoneFails(schedule: seq<Gap>, from: nat, renamed: bool) {
    forall k: nat :: from <= k < from + Calls(renamed) + (if renamed then 2 else 1) ==> !FailsAt(schedule, k)
  }

  lemma InstalledExactly(schedule: seq<Gap>, from: nat, before: Disk, expected: Option<Digest>,
                         body: InstallResult, used: nat, taken: Option<Inode>, published: bool)
    requires Linked(before) && Unattended(before, expected, body, used, taken)
    requires Ran(schedule, from, from + used, body.OsFailure?) && Accounts(body, used, taken.Some?, published)
    requires published ==> taken.Some? == expected.Some?
    ensures body.Installed? && CleanUp(schedule, from + used, taken.Some?)
       <==> Expected(before, expected) && NoneFails(schedule, from, expected.Some?)
  {
    assert body.OsFailure? ==> FailsAt(schedule, from + used - 1);
  }

  class Folder {
    const schedule: seq<Gap>
    var next: nat          // the number of calls made
    var disk: Disk

    ghost predicate Valid() reads this { Sound(disk) }

    constructor (target: Option<Bytes>, schedule: seq<Gap>)
      ensures Valid() && this.schedule == schedule && next == 0
      ensures disk.temporary == None && disk.recovery == map[] && !disk.touched && disk.lastLeft == disk.target
      ensures disk.target.Some? <==> target.Some?
      ensures target.Some? ==> disk.userFiles == map[disk.target.value := target.value]
    {
      this.schedule, next := schedule, 0;
      var none := Disk(None, None, map[], map[], 0, map[], {}, None, false);
      disk := if target.None? then none else Created(none, target.value).(lastLeft := Some(0));
    }

    /** The user acts, then the next call goes through or fails. */
    method NextCall() returns (fails: bool)
      requires Valid()
      modifies this
      ensures Valid() && UserOnly(old(disk), disk)
      ensures next == old(next) + 1 && fails == FailsAt(schedule, old(next))
      ensures Quiet(schedule) ==> disk == old(disk)
    {
      fails := next < |schedule| && schedule[next].fails;
      var moves := if next < |schedule| then schedule[next].moves else [];
      next := next + 1;
      for n := 0 to |moves|
        invariant Valid() && UserOnly(old(disk), disk) && next == old(next) + 1
        invariant n == 0 ==> disk == old(disk)
      {
        MoveSound(disk, moves[n]);
        disk := Moved(disk, moves[n]);
      }
    }

    // -------------------------------------------------- the client's file calls

    method CreateTemporary(data: Bytes)
      requires Valid() && disk.temporary.None?
      modifies this`disk
      ensures Valid() && old(disk).unused !in old(disk).contents
      ensures disk == old(disk).(temporary := Some(old(disk).unused), unused := old(disk).unused + 1,
                                 contents := old(disk).contents[old(disk).unused := data])
    {
      disk := disk.(temporary := Some(disk.unused), unused := disk.unused + 1,
                    contents := disk.contents[disk.unused := data]);
    }

    /** Atomic rename of the pathname into the recovery area. */
    method TakeAway(backup: string) returns (taken: Option<Inode>)
      requires Valid() && backup !in disk.recovery
      modifies this`disk
      ensures Valid() && taken == old(disk).target
      ensures disk == if taken.None? then old(disk)
                      else old(disk).(target := None, touched := false,
                                      recovery := old(disk).recovery[backup := taken.value])
    {
      taken := disk.target;
      if taken.Some? {
        ghost var before := disk;
        disk := disk.(target := None, touched := false, recovery := disk.recovery[backup := taken.value]);
        assert disk.recovery[backup] == taken.value;
        forall i | Recovered(before.recovery, i) ensures Recovered(disk.recovery, i) {
          var n :| n in before.recovery && before.recovery[n] == i;
          assert disk.recovery[n] == i;
        }
      }
    }

    /** Exclusive link: only if nothing is at the pathname. */
    method LinkTemporary() returns (linked: bool)
      requires Valid() && disk.temporary.Some?
      modifies this`disk
      ensures Valid() && linked == old(disk).target.None?
      ensures disk == if linked then old(disk).(target := old(disk).temporary, touched := false) else old(disk)
    {
      linked := disk.target.None?;
      if linked { disk := disk.(target := disk.temporary, touched := false); }
    }

    /** The same for the file in the recovery area. */
    method LinkBack(backup: string)
      requires Valid()
      modifies this`disk
      ensures Valid()
      ensures disk == if old(disk).target.None? && backup in old(disk).recovery
                      then old(disk).(target := Some(old(disk).recovery[backup])) else old(disk)
    {
      if disk.target.None? && backup in disk.recovery {
        disk := disk.(target := Some(disk.recovery[backup]));
      }
    }

    // ------------------------------------------------------------- the sequence

    /** The clean-up: the temporary name is dropped, then the old file put back if nothing
        is at the pathname. */
    method Finish(backup: string, body: InstallResult) returns (r: InstallResult)
      requires Valid()
      modifies this
      ensures Valid() && disk.recovery == old(disk).recovery
      ensures r == if CleanUp(schedule, old(next), backup in disk.recovery) then body else OsFailure
      ensures !FailsAt(schedule, old(next)) ==> disk.temporary.None?
      ensures backup !in disk.recovery && old(disk).target == old(disk).lastLeft ==> disk.target == disk.lastLeft
      ensures backup in disk.recovery && CleanUp(schedule, old(next), true) ==> disk.target.Some?
      ensures !disk.touched ==> !old(disk).touched
      ensures !disk.touched && old(disk).target.Some? ==> disk.target == old(disk).target
      ensures !disk.touched && old(disk).target.None? ==>
                disk.target == if backup in disk.recovery && CleanUp(schedule, old(next), true)
                               then Some(disk.recovery[backup]) else None
      ensures forall i :: i in old(disk).contents && i !in old(disk).userFiles && !disk.touched ==>
                i in disk.contents && disk.contents[i] == old(disk).contents[i] && i !in disk.userFiles
      ensures Quiet(schedule) ==> disk.touched == old(disk).touched && disk.userFiles == old(disk).userFiles
      ensures Quiet(schedule) && backup !in disk.recovery ==> disk.target == old(disk).target
    {
      var fails := NextCall();
      if fails { return OsFailure; }
      disk := disk.(temporary := None);
      if backup in disk.recovery {
        fails := NextCall();
        if fails { return OsFailure; }
        LinkBack(backup);
      }
      r := body;
    }

    /** `_install`. `body` is how the part before the clean-up ended and `used` how many
        calls it made; `taken` is the file that was at the pathname when it was renamed,
        `inspected` its content when it was read back, `published` whether the new file
        was linked. However the calls fail and whatever the user does in between:
        - no file of the user is lost or altered (`Valid`) and the taken one is in the
          recovery area;
        - the new content is published only over nothing, or over a file found to have
          the expected digest, and stays unless the user touches it;
        - if it is not published, an untouched pathname has the taken file back exactly
          if neither call of the clean-up, whose places in the schedule are known, fails;
        - which calls were made follows from how the body ended; after the link only the
          flush of the directory can fail. */
    method Install(data: Bytes, expected: Option<Digest>, backup: string)
      returns (r: InstallResult, ghost body: InstallResult, ghost used: nat,
               ghost taken: Option<Inode>, ghost inspected: Option<Bytes>, ghost published: bool)
      requires Valid() && disk.temporary.None? && backup !in disk.recovery && disk.lastLeft == disk.target
      modifies this
      ensures Valid()
      ensures disk.recovery == if taken.Some? then old(disk).recovery[backup := taken.value] else old(disk).recovery
      ensures published ==> taken.Some? == expected.Some?
      ensures published && expected.Some? ==> inspected.Some? && Sha256(inspected.value) == expected.value
      ensures published && !disk.touched ==> Carries(old(disk), disk, data)
      ensures !published && taken.None? ==> disk.target == disk.lastLeft
      ensures !published && taken.Some? && !disk.touched ==>
                disk.target == if CleanUp(schedule, old(next) + used, true) then taken else None
      ensures !published && taken.Some? && CleanUp(schedule, old(next) + used, true) ==>
                disk.target.Some? || disk.touched
      ensures !FailsAt(schedule, old(next) + used) ==> disk.temporary.None?
      ensures r == if CleanUp(schedule, old(next) + used, taken.Some?) then body else OsFailure
      ensures Ran(schedule, old(next), old(next) + used, body.OsFailure?)
      ensures Accounts(body, used, taken.Some?, published)
      ensures Quiet(schedule) ==>
                && Unattended(old(disk), expected, body, used, taken)
                && disk.userFiles == old(disk).userFiles && (published || taken.Some? ==> !disk.touched)
                && (!published && taken.None? ==> disk.target == old(disk).target)
      ensures (forall k: nat :: !FailsAt(schedule, k)) ==> r == body && !r.OsFailure? && disk.temporary.None?
      ensures Quiet(schedule) ==>
                (r.Installed? <==> Expected(old(disk), expected) && NoneFails(schedule, old(next), expected.Some?))
    {
      var result;
      result, taken, inspected, published := Publish(data, expected, backup);
      body, used := result, next - old(next);
      r := Finish(backup, result);
      assert body.OsFailure? ==> FailsAt(schedule, old(next) + used - 1);
      if Quiet(schedule) {
        InstalledExactly(schedule, old(next), old(disk), expected, body, used, taken, published);
      }
    }

    /** The new file is created under its private name and written. */
    method WriteTemporary(data: Bytes) returns (fails: bool)
      requires Valid() && disk.temporary.None? && disk.lastLeft == disk.target
      modifies this
      ensures Valid() && disk.recovery == old(disk).recovery && disk.lastLeft == disk.target
      ensures Ran(schedule, old(next), next, fails) && next <= old(next) + 2 && (!fails ==> next == old(next) + 2)
      ensures !fails ==>
                && Withheld(disk) && disk.temporary.value !in old(disk).contents
                && disk.contents[disk.temporary.value] == data
      ensures forall i :: i in old(disk).contents ==> i in disk.contents
      ensures Quiet(schedule) ==>
                && disk.target == old(disk).target && disk.userFiles == old(disk).userFiles
                && (forall i :: i in old(disk).contents ==> disk.contents[i] == old(disk).contents[i])
    {
      fails := NextCall();
      if fails { return; }
      CreateTemporary(data);
      fails := NextCall();
    }

    /** The pathname is compared with what is expected, and the new file written. */
    method Prepare(data: Bytes, expected: Option<Digest>)
      returns (stop: Option<InstallResult>, replacing: bool)
      requires Valid() && disk.temporary.None? && disk.lastLeft == disk.target
      modifies this
      ensures Valid() && disk.recovery == old(disk).recovery && disk.lastLeft == disk.target
      ensures Ran(schedule, old(next), next, stop == Some(OsFailure))
      ensures stop in {None, Some(Refused), Some(OsFailure)}
      ensures next <= old(next) + 3 && (stop.None? ==> next == old(next) + 3)
      ensures stop == Some(Refused) ==> next == old(next) + 1
      ensures stop.None? ==>
                && Withheld(disk) && disk.temporary.value !in old(disk).contents
                && disk.contents[disk.temporary.value] == data && replacing == expected.Some?
      ensures forall i :: i in old(disk).contents ==> i in disk.contents
      ensures Quiet(schedule) ==>
                && disk.target == old(disk).target && disk.userFiles == old(disk).userFiles
                && (stop == Some(Refused) || next == old(next) + 1 || Expected(old(disk), expected))
                && (Expected(old(disk), expected) ==> stop != Some(Refused) && Expected(disk, expected))
    {
      stop, replacing := None, disk.target.Some?;
      var fails := NextCall();
      if fails { stop := Some(OsFailure); return; }
      if !Expected(disk, expected) { stop := Some(Refused); return; }
      replacing := disk.target.Some?;
      fails := WriteTemporary(data);
      if fails { stop := Some(OsFailure); }
    }

    /** The file just renamed is read back and compared with what was expected. */
    method Inspect(expected: Option<Digest>, backup: string)
      returns (stop: Option<InstallResult>, ghost inspected: Option<Bytes>)
      requires Valid() && Withheld(disk) && backup in disk.recovery && disk.target.None?
      modifies this
      ensures Valid() && disk.recovery == old(disk).recovery
      ensures disk.temporary == old(disk).temporary && Withheld(disk)
      ensures disk.contents[disk.temporary.value] == old(disk).contents[disk.temporary.value]
      ensures Ran(schedule, old(next), next, stop == Some(OsFailure))
      ensures stop in {None, Some(ConcurrentEdit), Some(OsFailure)}
      ensures next <= old(next) + 3 && (stop.None? ==> next == old(next) + 3)
      ensures stop == Some(ConcurrentEdit) ==> next == old(next) + 2
      ensures forall i :: i in old(disk).contents ==> i in disk.contents
      ensures !disk.touched ==> disk.target.None?
      ensures stop.None? ==> inspected.Some? && expected == Some(Sha256(inspected.value))
      ensures Quiet(schedule) ==> disk == old(disk)
      ensures Quiet(schedule) && expected == Some(Sha256(disk.contents[disk.recovery[backup]])) ==>
                stop != Some(ConcurrentEdit)
    {
      stop, inspected := None, None;
      var fails := NextCall();
      if fails { stop := Some(OsFailure); return; }
      var actual := disk.contents[disk.recovery[backup]];
      inspected := Some(actual);
      fails := NextCall();                        // the recovery sidecar
      if fails { stop := Some(OsFailure); return; }
      if expected != Some(Sha256(actual)) { stop := Some(ConcurrentEdit); return; }
      fails := NextCall();                        // mode bits of the old file
      if fails { stop := Some(OsFailure); }
    }

    /** The old file goes to the recovery area and is compared with what was expected;
        a result stops the installation. */
    method SetAside(expected: Option<Digest>, backup: string)
      returns (stop: Option<InstallResult>, ghost taken: Option<Inode>, ghost inspected: Option<Bytes>)
      requires Valid() && backup !in disk.recovery && disk.lastLeft == disk.target && disk.temporary.Some?
      requires Withheld(disk)
      modifies this
      ensures Valid() && disk.temporary == old(disk).temporary && Withheld(disk)
      ensures Ran(schedule, old(next), next, stop == Some(OsFailure))
      ensures stop in {None, Some(Vanished), Some(ConcurrentEdit), Some(OsFailure)}
      ensures next <= old(next) + 3 && (stop.None? ==> next == old(next) + 3)
      ensures stop == Some(ConcurrentEdit) ==> next == old(next) + 2
      ensures stop == Some(Vanished) <==> taken.None?
      ensures taken.None? ==> next == old(next) && disk.target == disk.lastLeft
      ensures forall i :: i in old(disk).contents ==> i in disk.contents
      ensures disk.contents[disk.temporary.value] == old(disk).contents[disk.temporary.value]
      ensures disk.recovery == if taken.Some? then old(disk).recovery[backup := taken.value] else old(disk).recovery
      ensures taken.Some? && !disk.touched ==> disk.target.None?
      ensures stop.None? ==> inspected.Some? && expected == Some(Sha256(inspected.value))
      ensures Quiet(schedule) ==> disk.userFiles == old(disk).userFiles
      ensures Quiet(schedule) && old(disk).target.Some? && Expected(old(disk), expected) ==>
                && taken == old(disk).target && !disk.touched
                && (stop.None? || stop == Some(OsFailure))
    {
      inspected := None;
      var renamed := TakeAway(backup);
      taken := renamed;
      if renamed.None? { stop := Some(Vanished); return; }
      stop, inspected := Inspect(expected, backup);
    }

    /** The new file is linked to the pathname if nothing is there. */
    method LinkNew() returns (r: InstallResult, ghost published: bool)
      requires Valid() && Withheld(disk)
      modifies this
      ensures Valid() && disk.recovery == old(disk).recovery
      ensures Ran(schedule, old(next), next, r.OsFailure?) && (r.Installed? || r.Deferred? || r.OsFailure?)
      ensures next == old(next) + if published then 2 else 1
      ensures r.Installed? ==> published
      ensures r.Deferred? ==> !published
      ensures published && !disk.touched ==> Linked(disk) && disk.target == old(disk).temporary
      ensures published && !disk.touched ==>
                && disk.target.value !in disk.userFiles && disk.target.value in disk.contents
                && disk.contents[disk.target.value] == old(disk).contents[disk.target.value]
      ensures !published ==> UserOnly(old(disk), disk)
      ensures Quiet(schedule) && !published ==> disk == old(disk)
      ensures Quiet(schedule) ==> disk.userFiles == old(disk).userFiles
      ensures Quiet(schedule) && published ==> !disk.touched
      ensures Quiet(schedule) && old(disk).target.None? ==> !r.Deferred?
    {
      published := false;
      var fails := NextCall();
      if fails { r := OsFailure; return; }
      var linked := LinkTemporary();
      if !linked { r := Deferred; return; }
      published := true;
      fails := NextCall();                        // fsync of the directory
      r := if fails then OsFailure else Installed;
    }

    /** Everything before the clean-up. */
    method Publish(data: Bytes, expected: Option<Digest>, backup: string)
      returns (r: InstallResult, ghost taken: Option<Inode>, ghost inspected: Option<Bytes>,
               ghost published: bool)
      requires Valid() && disk.temporary.None? && backup !in disk.recovery && disk.lastLeft == disk.target
      modifies this
      ensures Valid()
      ensures Ran(schedule, old(next), next, r.OsFailure?)
      ensures Accounts(r, next - old(next), taken.Some?, published)
      ensures disk.recovery == if taken.Some? then old(disk).recovery[backup := taken.value] else old(disk).recovery
      ensures published ==> taken.Some? == expected.Some?
      ensures published && expected.Some? ==> inspected.Some? && Sha256(inspected.value) == expected.value
      ensures published && !disk.touched ==> Carries(old(disk), disk, data)
      ensures !published && taken.None? ==> disk.target == disk.lastLeft
      ensures !published && taken.Some? && !disk.touched ==> disk.target.None?
      ensures Quiet(schedule) ==>
                && Unattended(old(disk), expected, r, next - old(next), taken)
                && disk.userFiles == old(disk).userFiles && (published || taken.Some? ==> !disk.touched)
                && (!published && taken.None? ==> disk.target == old(disk).target)
    {
      taken, inspected, published := None, None, false;
      var stop, replacing;
      stop, replacing := Prepare(data, expected);
      if stop.Some? { r := stop.value; return; }
      if replacing {
        stop, taken, inspected := SetAside(expected, backup);
        if stop.Some? { r := stop.value; return; }
      }
      r, published := LinkNew();
    }
  }

  // ---------------------------------------------------------------- schedules that fail

  const FINE := Gap([], false)
  const FAILS := Gap([], true)

  /** Nobody interferes, and only the flush of the directory after the link fails: the
      caller is told of a failure, and the new content stands at the pathname. */
  method FlushFails(body: Bytes, data: Bytes) returns (r: InstallResult, disk: Disk)
    ensures Linked(disk) && r.OsFailure? && disk.target.Some? && disk.contents[disk.target.value] == data
  {
    var folder := new Folder(Some(body), [FINE, FINE, FINE, FINE, FINE, FINE, FINE, FAILS]);
    ghost var how, used, taken, inspected, published;
    r, how, used, taken, inspected, published := folder.Install(data, Some(Sha256(body)), "copy");
    assert FailsAt(folder.schedule, 7) && (how.OsFailure? ==> FailsAt(folder.schedule, used - 1));
    assert forall k: nat :: k < 7 ==> !FailsAt(folder.schedule, k);
    disk := folder.disk;
  }

  /** Reading the old file back fails, then dropping the temporary name: the pathname
      stays empty, both names are left, and the old file is only in the recovery area. */
  method DropFails(body: Bytes, data: Bytes) returns (r: InstallResult, disk: Disk)
    ensures Linked(disk) && r.OsFailure? && disk.target.None?
    ensures "copy" in disk.recovery && disk.contents[disk.recovery["copy"]] == body
  {
    var folder := new Folder(Some(body), [FINE, FINE, FINE, FAILS, FAILS]);
    ghost var how, used, taken, inspected, published;
    r, how, used, taken, inspected, published := folder.Install(data, Some(Sha256(body)), "copy");
    assert FailsAt(folder.schedule, 3) && (how.OsFailure? ==> FailsAt(folder.schedule, used - 1));
    assert forall k: nat :: k < 3 ==> !FailsAt(folder.schedule, k);
    disk := folder.disk;
  }

  /** The same with linking back instead: the temporary name is gone, the pathname empty. */
  method LinkBackFails(body: Bytes, data: Bytes) returns (r: InstallResult, disk: Disk)
    ensures Linked(disk) && r.OsFailure? && disk.target.None? && disk.temporary.None?
    ensures "copy" in disk.recovery && disk.contents[disk.recovery["copy"]] == body
  {
    var folder := new Folder(Some(body), [FINE, FINE, FINE, FAILS, FINE, FAILS]);
    ghost var how, used, taken, inspected, published;
    r, how, used, taken, inspected, published := folder.Install(data, Some(Sha256(body)), "copy");
    assert FailsAt(folder.schedule, 3) && (how.OsFailure? ==> FailsAt(folder.schedule, used - 1));
    assert forall k: nat :: k < 3 ==> !FailsAt(folder.schedule, k);
    disk := folder.disk;
  }
}
