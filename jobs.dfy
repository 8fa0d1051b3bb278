/** What the closures that FilesOrganizer puts on its serial ioQueue do, as
    functions of the disk: one save or load job at a time, and a queue of
    them run in order. */
module Jobs {
  import opened Paths
  import opened Disks

  /** A closure waiting on ioQueue. The ticket is the job's position in
      submission order; it stands for the completion handler the job owes a
      call. */
  datatype Job =
    | SaveJob(ticket: nat, url: Path, data: Bytes)
    | LoadJob(ticket: nat, url: Path)

  /** One call of a completion handler: a URLResult for a save, a
      DataResult for a load. */
  datatype Delivery =
    | Saved(ticket: nat, saved: Result<Path>)
    | Loaded(ticket: nat, loaded: Result<Bytes>)

  /** Which of the job's filesystem calls raise an I/O error this time. */
  datatype Faults = Faults(mkdir: bool, write: bool, read: bool)

  const NoFaults := Faults(false, false, false)

  /** The disk after a job and the handler call it made. */
  datatype Ran = Ran(disk: Disk, delivery: Delivery)

  /** The disk after a run of jobs and the handler calls, in order. */
  datatype Trace = Trace(disk: Disk, deliveries: seq<Delivery>)

  /** prepareDirectory: leaves the disk alone when something is already at
      `folder`, and otherwise creates it with its missing ancestors. */
  function PrepareDirectory(d: Disk, folder: Path, fault: bool): (r: Result<Disk>)
    ensures FileExists(d, folder) ==> r == Success(d)
    ensures r.Success? && folder != [] ==> FileExists(r.value, folder)
    ensures r.Success? ==> r.value.files == d.files && d.dirs <= r.value.dirs
    ensures r.Failure? ==> !FileExists(d, folder) && r.error == DirectoryCreationFailed
  {
    if FileExists(d, folder) then Success(d) else CreateDirectory(d, folder, fault)
  }

  /** One closure of saveFileInBackground or loadDataInBackground run
      against the disk. A save writes only when preparing the folder
      succeeded, writes exactly `data` at `url` and nothing else, and
      answers with the URL; a load changes nothing and answers with the
      file's bytes or an error. Either way the job's handler is called once. */
  function RunJob(d: Disk, folder: Path, job: Job, f: Faults): (r: Ran)
    ensures r.delivery.ticket == job.ticket
    ensures job.SaveJob? <==> r.delivery.Saved?
    ensures d.dirs <= r.disk.dirs <= d.dirs + Ancestors(folder)
    ensures job.SaveJob? && r.delivery.saved.Success? ==>
      r.delivery.saved.value == job.url && r.disk.files == d.files[job.url := job.data]
    ensures job.SaveJob? && r.delivery.saved.Failure? ==> r.disk.files == d.files
    ensures job.LoadJob? ==> r.disk == d && r.delivery.loaded == ReadData(d, job.url, f.read)
  {
    match job
    case SaveJob(t, url, data) =>
      (match PrepareDirectory(d, folder, f.mkdir)
       case Failure(e) => Ran(d, Saved(t, Failure(e)))
       case Success(prepared) =>
         match WriteData(prepared, url, data, f.write)
         case Failure(e) => Ran(prepared, Saved(t, Failure(e)))
         case Success(written) => Ran(written, Saved(t, Success(url))))
    case LoadJob(t, url) =>
      Ran(d, Loaded(t, ReadData(d, url, f.read)))
  }

  /** The serial queue: jobs run one at a time, in submission order, the
      i-th with the i-th faults, each on the disk the previous ones left.
      The only directories it ever creates are the folder and those above
      it. */
  function Exec(d: Disk, folder: Path, jobs: seq<Job>, faults: seq<Faults>): (r: Trace)
    requires |faults| == |jobs|
    ensures |r.deliveries| == |jobs|
    ensures d.dirs <= r.disk.dirs <= d.dirs + Ancestors(folder)
    decreases |jobs|
  {
    if jobs == [] then Trace(d, [])
    else
      var first := RunJob(d, folder, jobs[0], faults[0]);
      var rest := Exec(first.disk, folder, jobs[1..], faults[1..]);
      Trace(rest.disk, [first.delivery] + rest.deliveries)
  }

  /** The queue runs its first job, then the rest on the disk it left. */
  lemma ExecFirst(d: Disk, folder: Path, jobs: seq<Job>, faults: seq<Faults>)
    requires |faults| == |jobs| && jobs != []
    ensures var first := RunJob(d, folder, jobs[0], faults[0]);
      var rest := Exec(first.disk, folder, jobs[1..], faults[1..]);
      Exec(d, folder, jobs, faults) == Trace(rest.disk, [first.delivery] + rest.deliveries)
  {
  }

  /** Exactly one handler call per job, in the jobs' order, each of the
      job's own kind and carrying the job's ticket. */
  lemma {:induction false} ExecAnswersEachJobOnce(d: Disk, folder: Path, jobs: seq<Job>, faults: seq<Faults>)
    requires |faults| == |jobs|
    ensures var r := Exec(d, folder, jobs, faults);
      && |r.deliveries| == |jobs|
      && forall i :: 0 <= i < |jobs| ==>
           r.deliveries[i].ticket == jobs[i].ticket && (jobs[i].SaveJob? <==> r.deliveries[i].Saved?)
    decreases |jobs|
  {
    if jobs != [] {
      var first := RunJob(d, folder, jobs[0], faults[0]);
      ExecAnswersEachJobOnce(first.disk, folder, jobs[1..], faults[1..]);
      var rest := Exec(first.disk, folder, jobs[1..], faults[1..]);
      assert forall i :: 1 <= i < |jobs| ==> ([first.delivery] + rest.deliveries)[i] == rest.deliveries[i - 1];
    }
  }

  /** Preparing an existing folder again changes nothing and cannot fail,
      whatever faults the platform would raise. */
  lemma PrepareDirectoryIdempotent(d: Disk, folder: Path, f1: bool, f2: bool)
    requires folder != []
    requires PrepareDirectory(d, folder, f1).Success?
    ensures var d1 := PrepareDirectory(d, folder, f1).value;
      PrepareDirectory(d1, folder, f2) == Success(d1)
  {
  }

  /** When the folder cannot be prepared, whether the platform raises an
      error or a regular file sits above the folder, the save attempts no
      write, leaves the disk as it was and reports the failure. */
  lemma MkdirFailureBlocksWrite(d: Disk, folder: Path, t: nat, url: Path, data: Bytes, f: Faults)
    requires PrepareDirectory(d, folder, f.mkdir).Failure?
    ensures RunJob(d, folder, SaveJob(t, url, data), f) == Ran(d, Saved(t, Failure(DirectoryCreationFailed)))
  {
  }

  /** Without faults, a save into a folder whose ancestors are no regular
      files, at a path that is no directory, succeeds. */
  lemma SaveSucceeds(d: Disk, folder: Path, t: nat, url: Path, data: Bytes)
    requires |url| > 1 && Parent(url) == folder
    requires forall q :: q in Ancestors(folder) ==> q !in d.files
    requires url !in d.dirs
    ensures var r := RunJob(d, folder, SaveJob(t, url, data), NoFaults);
      && r.delivery == Saved(t, Success(url))
      && r.disk.files == d.files[url := data]
      && r.disk.dirs <= d.dirs + Ancestors(folder)
  {
  }

  /** A save followed by a load of the same path, with no fault on the read,
      gives back exactly the saved bytes. */
  lemma SaveThenLoad(d: Disk, folder: Path, t: nat, u: nat, url: Path, data: Bytes, f: Faults, g: Faults)
    requires RunJob(d, folder, SaveJob(t, url, data), f).delivery.saved.Success?
    requires !g.read
    ensures var saved := RunJob(d, folder, SaveJob(t, url, data), f).disk;
      RunJob(saved, folder, LoadJob(u, url), g).delivery == Loaded(u, Success(data))
  {
  }

  /** A load of a path with no regular file fails; it never answers with
      empty data. */
  lemma LoadMissingFails(d: Disk, folder: Path, u: nat, url: Path, g: Faults)
    requires url !in d.files
    ensures RunJob(d, folder, LoadJob(u, url), g).delivery == Loaded(u, Failure(ReadFailed))
  {
  }

  /** removeFolder: deletes the folder and everything under it and swallows
      any error (`try?`), so a failed removal leaves the disk as it was. */
  function RemoveFolder(d: Disk, folder: Path, fault: bool): (r: Disk)
    ensures r == d || r == Prune(d, folder)
    ensures !fault && FileExists(d, folder) ==> r == Prune(d, folder)
    ensures forall q :: !IsPrefix(folder, q) ==>
      (q in r.dirs <==> q in d.dirs) && (q in r.files <==> q in d.files)
    ensures forall q :: q in r.files ==> r.files[q] == d.files[q]
  {
    match RemoveItem(d, folder, fault)
    case Failure(_) => d
    case Success(pruned) => pruned
  }

  /** On a well-formed disk, a removeFolder that raises no fault leaves
      nothing at or under the folder, whether or not the folder existed. */
  lemma {:induction false} RemoveFolderClears(d: Disk, folder: Path)
    requires WellFormed(d) && folder != []
    ensures var r := RemoveFolder(d, folder, false);
      forall q :: IsPrefix(folder, q) ==> q !in r.dirs && q !in r.files
  {
    forall q | IsPrefix(folder, q) && FileExists(d, q)
      ensures FileExists(d, folder)
    {
      OccupiedFolderExists(d, folder, q);
    }
  }

  /** Running one job keeps the disk well formed. */
  lemma RunJobKeepsWellFormed(d: Disk, folder: Path, job: Job, f: Faults)
    requires WellFormed(d)
    ensures WellFormed(RunJob(d, folder, job, f).disk)
  {
    if job.SaveJob? && !FileExists(d, folder) && PrepareDirectory(d, folder, f.mkdir).Success? {
      CreateDirectoryKeepsWellFormed(d, folder, f.mkdir);
    }
  }

  /** Running a queue of jobs keeps the disk well formed. */
  lemma {:induction false} ExecKeepsWellFormed(d: Disk, folder: Path, jobs: seq<Job>, faults: seq<Faults>)
    requires WellFormed(d) && |faults| == |jobs|
    ensures WellFormed(Exec(d, folder, jobs, faults).disk)
    decreases |jobs|
  {
    if jobs != [] {
      RunJobKeepsWellFormed(d, folder, jobs[0], faults[0]);
      ExecKeepsWellFormed(RunJob(d, folder, jobs[0], faults[0]).disk, folder, jobs[1..], faults[1..]);
    }
  }

  /** Running two queues back to back is running their concatenation. */
  lemma {:induction false} ExecAppend(d: Disk, folder: Path, a: seq<Job>, fa: seq<Faults>, b: seq<Job>, fb: seq<Faults>)
    requires |fa| == |a| && |fb| == |b|
    ensures var first := Exec(d, folder, a, fa);
      var second := Exec(first.disk, folder, b, fb);
      Exec(d, folder, a + b, fa + fb) == Trace(second.disk, first.deliveries + second.deliveries)
    decreases |a|
  {
    if a == [] {
      assert a + b == b && fa + fb == fb;
    } else {
      var step := RunJob(d, folder, a[0], fa[0]);
      assert (a + b)[0] == a[0] && (fa + fb)[0] == fa[0];
      assert (a + b)[1..] == a[1..] + b && (fa + fb)[1..] == fa[1..] + fb;
      ExecAppend(step.disk, folder, a[1..], fa[1..], b, fb);
      var restA := Exec(step.disk, folder, a[1..], fa[1..]);
      var second := Exec(restA.disk, folder, b, fb);
      ExecFirst(d, folder, a, fa);
      ExecFirst(d, folder, a + b, fa + fb);
      assert [step.delivery] + (restA.deliveries + second.deliveries)
          == ([step.delivery] + restA.deliveries) + second.deliveries;
    }
  }

  /** Running the first k+1 jobs is running the first k, then job k on the
      disk they leave. */
  lemma ExecSnoc(d: Disk, folder: Path, jobs: seq<Job>, faults: seq<Faults>, k: nat)
    requires |faults| == |jobs| && k < |jobs|
    ensures var done := Exec(d, folder, jobs[..k], faults[..k]);
      var ran := RunJob(done.disk, folder, jobs[k], faults[k]);
      Exec(d, folder, jobs[..k + 1], faults[..k + 1]) == Trace(ran.disk, done.deliveries + [ran.delivery])
  {
    var done := Exec(d, folder, jobs[..k], faults[..k]);
    var ran := RunJob(done.disk, folder, jobs[k], faults[k]);
    assert Exec(done.disk, folder, [jobs[k]], [faults[k]]) == Trace(ran.disk, [ran.delivery]);
    ExecAppend(d, folder, jobs[..k], faults[..k], [jobs[k]], [faults[k]]);
    assert jobs[..k + 1] == jobs[..k] + [jobs[k]];
    assert faults[..k + 1] == faults[..k] + [faults[k]];
  }

  /** Jobs that do not save to `url` leave the file at `url` as it was: a
      job touches no file but its own. */
  lemma {:induction false} ExecKeepsFile(d: Disk, folder: Path, jobs: seq<Job>, faults: seq<Faults>, url: Path)
    requires |faults| == |jobs|
    requires forall i :: 0 <= i < |jobs| && jobs[i].SaveJob? ==> jobs[i].url != url
    ensures var r := Exec(d, folder, jobs, faults).disk;
      (url in r.files <==> url in d.files) && (url in d.files ==> r.files[url] == d.files[url])
    decreases |jobs|
  {
    if jobs != [] {
      var d1 := RunJob(d, folder, jobs[0], faults[0]).disk;
      assert forall i :: 0 <= i < |jobs| - 1 ==> jobs[1..][i] == jobs[i + 1];
      ExecKeepsFile(d1, folder, jobs[1..], faults[1..], url);
    }
  }

  /** A save that reported success, followed by any jobs that do not save
      to the same path, followed by a load of that path without a read
      fault: the load delivers exactly the saved bytes. */
  lemma {:induction false} SaveThenLaterLoad(d: Disk, folder: Path, t: nat, url: Path, data: Bytes,
                                             middle: seq<Job>, u: nat, faults: seq<Faults>)
    requires |faults| == |middle| + 2
    requires forall i :: 0 <= i < |middle| && middle[i].SaveJob? ==> middle[i].url != url
    requires !faults[|faults| - 1].read
    requires var jobs := [SaveJob(t, url, data)] + middle + [LoadJob(u, url)];
      Exec(d, folder, jobs, faults).deliveries[0] == Saved(t, Success(url))
    ensures var jobs := [SaveJob(t, url, data)] + middle + [LoadJob(u, url)];
      Exec(d, folder, jobs, faults).deliveries[|jobs| - 1] == Loaded(u, Success(data))
  {
    var jobs := [SaveJob(t, url, data)] + middle + [LoadJob(u, url)];
    var first := RunJob(d, folder, jobs[0], faults[0]);
    assert jobs[1..] == middle + [LoadJob(u, url)];
    var fm, fl := faults[1..|faults| - 1], faults[|faults| - 1..];
    assert faults[1..] == fm + fl;
    ExecAppend(first.disk, folder, middle, fm, [LoadJob(u, url)], fl);
    ExecKeepsFile(first.disk, folder, middle, fm, url);
  }

  /** Saves of B1..Bn to one path, run by the serial queue without faults,
      all succeed and leave the file holding Bn. */
  lemma {:induction false} LastSaveWins(d: Disk, folder: Path, url: Path, jobs: seq<Job>, faults: seq<Faults>)
    requires |jobs| > 0 && |faults| == |jobs|
    requires forall i :: 0 <= i < |jobs| ==> jobs[i].SaveJob? && jobs[i].url == url && faults[i] == NoFaults
    requires |url| > 1 && Parent(url) == folder
    requires forall q :: q in Ancestors(folder) ==> q !in d.files
    requires url !in d.dirs
    ensures var r := Exec(d, folder, jobs, faults);
      && url in r.disk.files && r.disk.files[url] == jobs[|jobs| - 1].data
      && forall i :: 0 <= i < |jobs| ==> r.deliveries[i] == Saved(jobs[i].ticket, Success(url))
    decreases |jobs|
  {
    SaveSucceeds(d, folder, jobs[0].ticket, url, jobs[0].data);
    var d1 := RunJob(d, folder, jobs[0], faults[0]).disk;
    if |jobs| > 1 {
      assert url !in Ancestors(folder);
      assert forall i :: 0 <= i < |jobs| - 1 ==> jobs[1..][i] == jobs[i + 1] && faults[1..][i] == faults[i + 1];
      LastSaveWins(d1, folder, url, jobs[1..], faults[1..]);
    }
  }

  /** Two saves to one path and then a load of it, run by the serial queue
      without faults: both saves report the path and the load sees the
      second save's bytes. */
  lemma {:induction false} OverwriteThenLoad(d: Disk, folder: Path, jobs: seq<Job>, faults: seq<Faults>,
                                             t: nat, url: Path, first: Bytes, second: Bytes)
    requires jobs == [SaveJob(t, url, first), SaveJob(t + 1, url, second), LoadJob(t + 2, url)]
    requires faults == [NoFaults, NoFaults, NoFaults]
    requires |url| > 1 && Parent(url) == folder
    requires forall q :: q in Ancestors(folder) ==> q !in d.files
    requires url !in d.dirs
    ensures Exec(d, folder, jobs, faults).deliveries
      == [Saved(t, Success(url)), Saved(t + 1, Success(url)), Loaded(t + 2, Success(second))]
  {
    SaveSucceeds(d, folder, t, url, first);
    var d1 := RunJob(d, folder, jobs[0], NoFaults).disk;
    assert url !in Ancestors(folder);
    SaveSucceeds(d1, folder, t + 1, url, second);
    var d2 := RunJob(d1, folder, jobs[1], NoFaults).disk;
    ExecFirst(d, folder, jobs, faults);
    assert jobs[1..] == [jobs[1], jobs[2]] && faults[1..] == [NoFaults, NoFaults];
    ExecFirst(d1, folder, jobs[1..], faults[1..]);
    assert jobs[1..][1..] == [jobs[2]] && faults[1..][1..] == [NoFaults];
    ExecFirst(d2, folder, jobs[1..][1..], faults[1..][1..]);
  }

  /** After a removeFolder that raises no error, nothing under the folder
      can be loaded. */
  lemma {:induction false} RemoveThenLoadFails(d: Disk, folder: Path, u: nat, url: Path, g: Faults)
    requires WellFormed(d) && folder != [] && IsPrefix(folder, url)
    ensures RunJob(RemoveFolder(d, folder, false), folder, LoadJob(u, url), g).delivery == Loaded(u, Failure(ReadFailed))
  {
    RemoveFolderClears(d, folder);
  }

  /** After a removeFolder that raises no error, a save without faults
      recreates the folder and succeeds, provided no regular file sits above
      the folder. */
  lemma RemoveThenSaveSucceeds(d: Disk, folder: Path, t: nat, url: Path, data: Bytes)
    requires WellFormed(d)
    requires |url| > 1 && Parent(url) == folder
    requires forall q :: q in Ancestors(folder) && q != folder ==> q !in d.files
    ensures var r := RunJob(RemoveFolder(d, folder, false), folder, SaveJob(t, url, data), NoFaults);
      && r.delivery == Saved(t, Success(url))
      && folder in r.disk.dirs && r.disk.files[url] == data
  {
  }
}
