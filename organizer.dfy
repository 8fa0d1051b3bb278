/** The storage engine: a FilesOrganizer instance over the disk it shares
    with the rest of the process. Saves and loads are put on the instance's
    serial ioQueue and run later, one at a time, by Step; each run calls the
    job's completion handler once, which here appends to `delivered`.
    removeFolder acts on the disk at once, bypassing the queue. */
module Organizer {
  import opened Paths
  import opened Disks
  import opened Jobs

  /** Handler calls carry tickets 0, 1, 2, ... in order, and the queue
      holds the next tickets in order. */
  ghost predicate InTicketOrder(delivered: seq<Delivery>, queue: seq<Job>) {
    && (forall i :: 0 <= i < |delivered| ==> delivered[i].ticket == i)
    && (forall i :: 0 <= i < |queue| ==> queue[i].ticket == |delivered| + i)
  }

  /** Every queued job targets a file directly inside `folder`. */
  ghost predicate InFolder(queue: seq<Job>, folder: Path) {
    forall i :: 0 <= i < |queue| ==> queue[i].url != [] && Parent(queue[i].url) == folder
  }

  /** Submitting a job with the next ticket keeps the order. */
  lemma SubmitKeepsOrder(delivered: seq<Delivery>, queue: seq<Job>, job: Job, folder: Path)
    requires InTicketOrder(delivered, queue) && InFolder(queue, folder)
    requires job.ticket == |delivered| + |queue| && job.url != [] && Parent(job.url) == folder
    ensures InTicketOrder(delivered, queue + [job]) && InFolder(queue + [job], folder)
  {
  }

  /** Answering the oldest job with its own ticket keeps the order. */
  lemma AnswerKeepsOrder(delivered: seq<Delivery>, queue: seq<Job>, answer: Delivery, folder: Path)
    requires InTicketOrder(delivered, queue) && InFolder(queue, folder)
    requires queue != [] && answer.ticket == queue[0].ticket
    ensures InTicketOrder(delivered + [answer], queue[1..]) && InFolder(queue[1..], folder)
  {
  }

  class FilesOrganizer {
    /** fileManager.cachesDirectory, handed in by the caller. */
    const cachesRoot: Path
    const folderName: string

    /** The disk as FileManager sees it. */
    var dirs: set<Path>
    var files: map<Path, Bytes>

    /** Closures submitted to ioQueue and not run yet, oldest first. */
    var ioQueue: seq<Job>

    /** Completion-handler calls made so far, in the order they were made. */
    var delivered: seq<Delivery>

    function CurrentDisk(): Disk
      reads this
    {
      Disk(dirs, files)
    }

    /** The disk is well formed; handler calls carry tickets 0, 1, 2, ... in
        order, and the queue holds the next tickets in order (so each job
        is answered once, in submission order); every queued job targets a
        file directly inside this organizer's folder. */
    ghost predicate Valid()
      reads this
    {
      && WellFormed(CurrentDisk())
      && InTicketOrder(delivered, ioQueue)
      && InFolder(ioQueue, FolderURL(cachesRoot, folderName))
    }

    /** init(folderName:fileManager:): nothing is queued and nothing has been
        delivered; the disk is whatever the file manager already holds. */
    constructor (cachesRoot: Path, folderName: string, disk: Disk)
      requires WellFormed(disk)
      ensures Valid()
      ensures this.cachesRoot == cachesRoot && this.folderName == folderName
      ensures CurrentDisk() == disk && ioQueue == [] && delivered == []
    {
      this.cachesRoot := cachesRoot;
      this.folderName := folderName;
      dirs := disk.dirs;
      files := disk.files;
      ioQueue := [];
      delivered := [];
    }

    /** saveFile: builds the FileMeta and hands it to saveFileInBackground.
        The returned ticket identifies the handler call the save will make. */
    method SaveFile(named: string, pathExtension: string, data: Bytes) returns (ticket: nat)
      requires Valid()
      modifies this`ioQueue
      ensures Valid()
      ensures ticket == |delivered| + |old(ioQueue)|
      ensures ioQueue == old(ioQueue) + [SaveJob(ticket, FileURL(cachesRoot, folderName, FileMeta(named, pathExtension)), data)]
    {
      var content := FileMeta(named, pathExtension);
      ticket := SaveFileInBackground(content, data);
    }

    /** saveFileInBackground: resolves the file URL now and queues the
        write; the disk is not touched until the job runs. */
    method SaveFileInBackground(content: FileMeta, data: Bytes) returns (ticket: nat)
      requires Valid()
      modifies this`ioQueue
      ensures Valid()
      ensures ticket == |delivered| + |old(ioQueue)|
      ensures ioQueue == old(ioQueue) + [SaveJob(ticket, FileURL(cachesRoot, folderName, content), data)]
    {
      var fileURL := FileURL(cachesRoot, folderName, content);
      ticket := |delivered| + |ioQueue|;
      SubmitKeepsOrder(delivered, ioQueue, SaveJob(ticket, fileURL, data), FolderURL(cachesRoot, folderName));
      ioQueue := ioQueue + [SaveJob(ticket, fileURL, data)];
    }

    /** loadData: builds the FileMeta and hands it to loadDataInBackground. */
    method LoadData(named: string, pathExtension: string) returns (ticket: nat)
      requires Valid()
      modifies this`ioQueue
      ensures Valid()
      ensures ticket == |delivered| + |old(ioQueue)|
      ensures ioQueue == old(ioQueue) + [LoadJob(ticket, FileURL(cachesRoot, folderName, FileMeta(named, pathExtension)))]
    {
      var content := FileMeta(named, pathExtension);
      ticket := LoadDataInBackground(content);
    }

    /** loadDataInBackground: resolves the file URL now and queues the read. */
    method LoadDataInBackground(content: FileMeta) returns (ticket: nat)
      requires Valid()
      modifies this`ioQueue
      ensures Valid()
      ensures ticket == |delivered| + |old(ioQueue)|
      ensures ioQueue == old(ioQueue) + [LoadJob(ticket, FileURL(cachesRoot, folderName, content))]
    {
      var fileURL := FileURL(cachesRoot, folderName, content);
      ticket := |delivered| + |ioQueue|;
      SubmitKeepsOrder(delivered, ioQueue, LoadJob(ticket, fileURL), FolderURL(cachesRoot, folderName));
      ioQueue := ioQueue + [LoadJob(ticket, fileURL)];
    }

    /** removeFolder: runs at once on the caller's side, not on ioQueue; it
        deletes the folder with everything in it and reports nothing. The
        queue and the handler calls are left as they were. */
    method RemoveFolder(fault: bool)
      requires Valid()
      modifies this`dirs, this`files
      ensures Valid()
      ensures CurrentDisk() == Jobs.RemoveFolder(old(CurrentDisk()), FolderURL(cachesRoot, folderName), fault)
    {
      var folder := FolderURL(cachesRoot, folderName);
      var removed := RemoveItem(CurrentDisk(), folder, fault);
      if removed.Success? {
        PruneKeepsWellFormed(CurrentDisk(), folder);
        dirs, files := removed.value.dirs, removed.value.files;
      }
    }

    /** prepareDirectory: creates the folder, with any missing directory
        above it, only when nothing is at its path yet; `thrown` is the
        error createDirectory raised, if any. */
    method PrepareDirectory(fault: bool) returns (thrown: Option<IoError>)
      requires WellFormed(CurrentDisk())
      modifies this`dirs
      ensures WellFormed(CurrentDisk())
      ensures var r := Jobs.PrepareDirectory(old(CurrentDisk()), FolderURL(cachesRoot, folderName), fault);
        if r.Success? then thrown == None && CurrentDisk() == r.value
        else thrown == Some(r.error) && dirs == old(dirs)
    {
      var folder := FolderURL(cachesRoot, folderName);
      thrown := None;
      if !FileExists(CurrentDisk(), folder) {
        var created := CreateDirectory(CurrentDisk(), folder, fault);
        match created {
          case Failure(e) =>
            thrown := Some(e);
          case Success(d) =>
            CreateDirectoryKeepsWellFormed(CurrentDisk(), folder, fault);
            dirs := d.dirs;
        }
      }
    }

    /** The serial ioQueue runs its oldest closure: a save prepares the
        folder and writes only if that worked, a load reads; the result is
        handed to the job's completion handler, exactly once. */
    method Step(f: Faults)
      requires Valid() && ioQueue != []
      modifies this`dirs, this`files, this`ioQueue, this`delivered
      ensures Valid()
      ensures var ran := RunJob(old(CurrentDisk()), FolderURL(cachesRoot, folderName), old(ioQueue[0]), f);
        && CurrentDisk() == ran.disk
        && delivered == old(delivered) + [ran.delivery]
        && ioQueue == old(ioQueue[1..])
    {
      var job := ioQueue[0];
      var delivery: Delivery;
      match job {
        case SaveJob(t, url, data) =>
          var thrown := PrepareDirectory(f.mkdir);
          if thrown.Some? {
            delivery := Saved(t, Failure(thrown.value));
          } else {
            var written := WriteData(CurrentDisk(), url, data, f.write);
            match written {
              case Failure(e) =>
                delivery := Saved(t, Failure(e));
              case Success(d) =>
                WriteDataKeepsWellFormed(CurrentDisk(), url, data, f.write);
                files := d.files;
                delivery := Saved(t, Success(url));
            }
          }
        case LoadJob(t, url) =>
          delivery := Loaded(t, ReadData(CurrentDisk(), url, f.read));
      }
      AnswerKeepsOrder(delivered, ioQueue, delivery, FolderURL(cachesRoot, folderName));
      ioQueue := ioQueue[1..];
      delivered := delivered + [delivery];
    }

    /** Drains ioQueue: every queued closure runs, oldest first, the i-th
        with the i-th faults, and the disk and the handler calls end up as
        the serial queue's run of those jobs makes them. */
    method RunQueue(faults: seq<Faults>)
      requires Valid() && |faults| == |ioQueue|
      modifies this`dirs, this`files, this`ioQueue, this`delivered
      ensures Valid() && ioQueue == []
      ensures var r := Exec(old(CurrentDisk()), FolderURL(cachesRoot, folderName), old(ioQueue), faults);
        CurrentDisk() == r.disk && delivered == old(delivered) + r.deliveries
    {
      ghost var folder := FolderURL(cachesRoot, folderName);
      ghost var jobs, d0, log0 := ioQueue, CurrentDisk(), delivered;
      var k := 0;
      while ioQueue != []
        invariant Valid() && k <= |jobs| && ioQueue == jobs[k..]
        invariant CurrentDisk() == Exec(d0, folder, jobs[..k], faults[..k]).disk
        invariant delivered == log0 + Exec(d0, folder, jobs[..k], faults[..k]).deliveries
        decreases |ioQueue|
      {
        ExecSnoc(d0, folder, jobs, faults, k);
        Step(faults[k]);
        k := k + 1;
      }
      assert jobs[..k] == jobs && faults[..k] == faults;
    }
  }
}
