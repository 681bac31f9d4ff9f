/** Reading and completing queued event posts in the file store: a completed
    post is moved into a dated archive folder of its project, or deleted. */
module Storage {
  import opened Common

  /** The posted payload as stored (only what identifies it is modelled). */
  datatype EventPostInfo = EventPostInfo(projectId: string, mediaType: string, data: seq<int>)

  /** A stored file: a readable post, or contents the reader fails on. */
  datatype StoredFile = PostFile(info: EventPostInfo) | Unreadable

  /** The calendar parts of the post's creation time that the archive path uses. */
  datatype Timestamp = Timestamp(year: nat, month: nat, day: nat, hour: nat)

  predicate ValidTimestamp(t: Timestamp) {
    1 <= t.month <= 12 && 1 <= t.day <= 31 && t.hour < 24
  }

  const ArchivePrefix: string := "archive"

  predicate IsDirectorySeparator(c: char) {
    c == '\\' || c == '/'
  }

  /** `Path.GetFileName`: the text after the last directory separator. */
  function FileName(path: string): (r: string)
    ensures |r| <= |path| && r == path[|path| - |r|..]
    ensures forall i :: 0 <= i < |r| ==> !IsDirectorySeparator(r[i])
    ensures |r| < |path| ==> IsDirectorySeparator(path[|path| - |r| - 1])
  {
    if path == [] || IsDirectorySeparator(path[|path| - 1]) then []
    else FileName(path[..|path| - 1]) + [path[|path| - 1]]
  }

  /** A number below 100 with two digits, as the `yy`, `MM`, `dd` and `HH`
      format specifiers write it. */
  function TwoDigits(n: nat): (r: string)
    requires n < 100
    ensures |r| == 2 && '0' <= r[0] <= '9' && '0' <= r[1] <= '9'
    ensures (r[0] as int - '0' as int) * 10 + (r[1] as int - '0' as int) == n
  {
    [DigitChar(n / 10), DigitChar(n % 10)]
  }

  lemma TwoDigitsInjective(a: nat, b: nat)
    requires a < 100 && b < 100 && TwoDigits(a) == TwoDigits(b)
    ensures a == b
  {
    DigitCharInjective(a / 10, b / 10);
    DigitCharInjective(a % 10, b % 10);
  }

  /** `created:yy\\MM\\dd\\HH`. */
  function DateFolder(t: Timestamp): (r: string)
    requires ValidTimestamp(t)
    ensures |r| == 11 && r[2] == r[5] == r[8] == '\\'
    ensures r[0..2] == TwoDigits(t.year % 100) && r[3..5] == TwoDigits(t.month)
    ensures r[6..8] == TwoDigits(t.day) && r[9..11] == TwoDigits(t.hour)
  {
    TwoDigits(t.year % 100) + "\\" + TwoDigits(t.month) + "\\" + TwoDigits(t.day) + "\\" + TwoDigits(t.hour)
  }

  /** `archive\yy\MM\dd\HH\{projectId}\{file name}`. */
  function ArchivePath(path: string, projectId: string, created: Timestamp): string
    requires ValidTimestamp(created)
  {
    ArchivePrefix + "\\" + DateFolder(created) + "\\" + projectId + "\\" + FileName(path)
  }

  /** The archived file keeps its name and lands in an archive folder, so
      completing it again is recognised as already archived. */
  lemma ArchivePathShape(path: string, projectId: string, created: Timestamp)
    requires ValidTimestamp(created)
    ensures StartsWith(ArchivePath(path, projectId, created), ArchivePrefix)
    ensures FileName(ArchivePath(path, projectId, created)) == FileName(path)
  {
    var a := ArchivePath(path, projectId, created);
    var f := FileName(path);
    var head := ArchivePrefix + "\\" + DateFolder(created) + "\\" + projectId + "\\";
    assert a == head + f;
    StartsWithConcat(ArchivePrefix, "\\" + DateFolder(created) + "\\" + projectId + "\\" + f);
    FileNameOfJoin(head, f);
  }

  lemma {:induction false} FileNameOfJoin(dir: string, name: string)
    requires dir != [] && IsDirectorySeparator(dir[|dir| - 1])
    requires forall i :: 0 <= i < |name| ==> !IsDirectorySeparator(name[i])
    ensures FileName(dir + name) == name
    decreases |name|
  {
    if name == [] {
      assert dir + name == dir;
    } else {
      var n := |name| - 1;
      assert (dir + name)[..|dir + name| - 1] == dir + name[..n];
      FileNameOfJoin(dir, name[..n]);
      assert name[..n] + [name[n]] == name;
    }
  }

  /** The same file of the same project created in different hours (up to the
      century) is archived under different paths. */
  lemma ArchivePathSeparatesHours(path: string, projectId: string, t1: Timestamp, t2: Timestamp)
    requires ValidTimestamp(t1) && ValidTimestamp(t2)
    requires ArchivePath(path, projectId, t1) == ArchivePath(path, projectId, t2)
    ensures t1.year % 100 == t2.year % 100 && t1.month == t2.month && t1.day == t2.day && t1.hour == t2.hour
  {
    var a := ArchivePath(path, projectId, t1);
    var b := ArchivePath(path, projectId, t2);
    assert a[8..19] == DateFolder(t1);
    assert b[8..19] == DateFolder(t2);
    assert DateFolder(t1)[0..2] == TwoDigits(t1.year % 100) && DateFolder(t2)[0..2] == TwoDigits(t2.year % 100);
    assert DateFolder(t1)[3..5] == TwoDigits(t1.month) && DateFolder(t2)[3..5] == TwoDigits(t2.month);
    assert DateFolder(t1)[6..8] == TwoDigits(t1.day) && DateFolder(t2)[6..8] == TwoDigits(t2.day);
    assert DateFolder(t1)[9..11] == TwoDigits(t1.hour) && DateFolder(t2)[9..11] == TwoDigits(t2.hour);
    TwoDigitsInjective(t1.year % 100, t2.year % 100);
    TwoDigitsInjective(t1.month, t2.month);
    TwoDigitsInjective(t1.day, t2.day);
    TwoDigitsInjective(t1.hour, t2.hour);
  }

  /** The file store, with the in-memory store's rename and delete: both fail,
      changing nothing, when the file is not there. */
  class FileStorage {
    var files: map<string, StoredFile>

    constructor (files: map<string, StoredFile>)
      ensures this.files == files
    {
      this.files := files;
    }

    method Rename(path: string, newPath: string) returns (ok: bool)
      modifies this
      ensures ok == (path in old(files))
      ensures ok ==> files == (old(files) - {path})[newPath := old(files)[path]]
      ensures !ok ==> files == old(files)
    {
      if path !in files {
        return false;
      }
      files := (files - {path})[newPath := files[path]];
      return true;
    }

    method Delete(path: string) returns (ok: bool)
      modifies this
      ensures ok == (path in old(files))
      ensures files == old(files) - {path}
    {
      ok := path in files;
      files := files - {path};
    }

    /** `GetEventPostAsync`: null for an empty path, and null instead of an
        error when the read fails (a missing or unreadable file, or a fault of
        the store itself, `readFault`). */
    function GetEventPost(path: string, readFault: bool): (r: Option<EventPostInfo>)
      reads this
      ensures r.Some? <==> path != [] && !readFault && path in files && files[path].PostFile?
      ensures r.Some? ==> files[path] == PostFile(r.value)
    {
      if path == [] || readFault then None
      else if path in files && files[path].PostFile? then Some(files[path].info)
      else None
    }

    /** `CompleteEventPostAsync`. `storageFault` stands for an exception from the
        store, which the source logs and turns into false. */
    method CompleteEventPost(path: string, projectId: string, created: Timestamp, shouldArchive: bool,
                             storageFault: bool) returns (ok: bool)
      requires ValidTimestamp(created)
      modifies this
      ensures path == [] ==> !ok && files == old(files)
      ensures path != [] && StartsWith(path, ArchivePrefix) ==> ok && files == old(files)
      ensures path != [] && !StartsWith(path, ArchivePrefix) && storageFault ==> !ok && files == old(files)
      ensures path != [] && !StartsWith(path, ArchivePrefix) && !storageFault && shouldArchive ==>
                && ok == (path in old(files))
                && files == (if ok then (old(files) - {path})[ArchivePath(path, projectId, created) := old(files)[path]]
                             else old(files))
      ensures path != [] && !StartsWith(path, ArchivePrefix) && !storageFault && !shouldArchive ==>
                ok == (path in old(files)) && files == old(files) - {path}
    {
      if path == [] {
        return false;
      }
      if StartsWith(path, ArchivePrefix) {
        return true;
      }
      if storageFault {
        return false;
      }
      if shouldArchive {
        var archivePath := ArchivePath(path, projectId, created);
        ok := Rename(path, archivePath);
        return;
      }
      ok := Delete(path);
    }
  }

  /** Archiving a readable post moves it: the post is read back unchanged from
      its archive path, the original path is gone, and completing the archived
      path again succeeds without touching the store. */
  method ArchiveThenComplete(storage: FileStorage, path: string, projectId: string, created: Timestamp)
    returns (first: bool, second: bool)
    requires ValidTimestamp(created)
    requires path != [] && !StartsWith(path, ArchivePrefix) && path in storage.files
    requires storage.files[path].PostFile?
    modifies storage
    ensures first && second
    ensures storage.GetEventPost(ArchivePath(path, projectId, created), false) == old(storage.GetEventPost(path, false))
    ensures path != ArchivePath(path, projectId, created)
    ensures storage.GetEventPost(path, false).None?
  {
    var archivePath := ArchivePath(path, projectId, created);
    ArchivePathShape(path, projectId, created);
    first := storage.CompleteEventPost(path, projectId, created, true, false);
    var archived := storage.files;
    second := storage.CompleteEventPost(archivePath, projectId, created, true, false);
    assert storage.files == archived;
  }
}
