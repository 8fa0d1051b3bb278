/** How the demo's view model drives one organizer over the folder "Images",
    storing a single blob "Image.jpeg": each scenario submits jobs, lets the
    serial queue run them without I/O faults, and states the handler calls
    that result. */
module Scenarios {
  import opened Paths
  import opened Disks
  import opened Jobs
  import opened Organizer

  const Images: string := "Images"
  const Image: FileMeta := FileMeta("Image", "jpeg")

  /** No regular file sits at the folder or above it, and the image's path
      is not a directory: the only conditions under which a fault-free save
      can succeed. */
  ghost predicate Writable(cachesRoot: Path, disk: Disk) {
    && (forall q :: q in Ancestors(FolderURL(cachesRoot, Images)) ==> q !in disk.files)
    && FileURL(cachesRoot, Images, Image) !in disk.dirs
  }

  /** saveImage then loadImage: the save reports the image's URL and the
      load hands back exactly the saved bytes, in that order. */
  method SaveThenLoadImage(cachesRoot: Path, disk: Disk, data: Bytes) returns (answers: seq<Delivery>)
    requires WellFormed(disk) && Writable(cachesRoot, disk)
    ensures answers == [Saved(0, Success(FileURL(cachesRoot, Images, Image))), Loaded(1, Success(data))]
  {
    var organizer := new FilesOrganizer(cachesRoot, Images, disk);
    var url := FileURL(cachesRoot, Images, Image);
    SaveSucceeds(disk, FolderURL(cachesRoot, Images), 0, url, data);
    var saveTicket := organizer.SaveFile("Image", "jpeg", data);
    var loadTicket := organizer.LoadData("Image", "jpeg");
    organizer.Step(NoFaults);
    organizer.Step(NoFaults);
    answers := organizer.delivered;
  }

  /** Two saveImage calls, then loadImage: the serial queue runs them in
      submission order, so the load sees the second image. */
  method OverwriteThenLoadImage(cachesRoot: Path, disk: Disk, first: Bytes, second: Bytes) returns (answers: seq<Delivery>)
    requires WellFormed(disk) && Writable(cachesRoot, disk)
    ensures answers == [Saved(0, Success(FileURL(cachesRoot, Images, Image))),
                        Saved(1, Success(FileURL(cachesRoot, Images, Image))),
                        Loaded(2, Success(second))]
  {
    var organizer := new FilesOrganizer(cachesRoot, Images, disk);
    var folder, url := FolderURL(cachesRoot, Images), FileURL(cachesRoot, Images, Image);
    var t0 := organizer.SaveFile("Image", "jpeg", first);
    var t1 := organizer.SaveFile("Image", "jpeg", second);
    var t2 := organizer.LoadData("Image", "jpeg");
    ghost var jobs := [SaveJob(0, url, first), SaveJob(1, url, second), LoadJob(2, url)];
    var faults := [NoFaults, NoFaults, NoFaults];
    assert organizer.ioQueue == jobs && organizer.delivered == [] && organizer.CurrentDisk() == disk;
    OverwriteThenLoad(disk, folder, jobs, faults, 0, url, first, second);
    organizer.RunQueue(faults);
    answers := organizer.delivered;
  }

  /** removeAll, then loadImage: when the removal raises no error (which it
      would swallow), the load after it fails, whatever the disk held,
      including an image saved earlier. */
  method RemoveAllThenLoad(cachesRoot: Path, disk: Disk) returns (answers: seq<Delivery>)
    requires WellFormed(disk)
    ensures answers == [Loaded(0, Failure(ReadFailed))]
  {
    var organizer := new FilesOrganizer(cachesRoot, Images, disk);
    organizer.RemoveFolder(false);
    var t0 := organizer.LoadData("Image", "jpeg");
    FileInFolder(cachesRoot, Images, Image);
    RemoveThenLoadFails(disk, FolderURL(cachesRoot, Images), 0, FileURL(cachesRoot, Images, Image), NoFaults);
    organizer.Step(NoFaults);
    answers := organizer.delivered;
  }

  /** removeAll, then saveImage: when the removal raises no error (which it
      would swallow), the save after it recreates the folder and succeeds,
      whatever was on the disk, as long as no regular file sits above the
      folder. */
  method RemoveAllThenSave(cachesRoot: Path, disk: Disk, data: Bytes) returns (answers: seq<Delivery>, stored: Option<Bytes>)
    requires WellFormed(disk)
    requires forall q :: q in Ancestors(FolderURL(cachesRoot, Images)) && q != FolderURL(cachesRoot, Images) ==> q !in disk.files
    ensures answers == [Saved(0, Success(FileURL(cachesRoot, Images, Image)))]
    ensures stored == Some(data)
  {
    var organizer := new FilesOrganizer(cachesRoot, Images, disk);
    var folder, url := FolderURL(cachesRoot, Images), FileURL(cachesRoot, Images, Image);
    organizer.RemoveFolder(false);
    var t0 := organizer.SaveFile("Image", "jpeg", data);
    RemoveThenSaveSucceeds(disk, folder, 0, url, data);
    organizer.Step(NoFaults);
    answers := organizer.delivered;
    stored := if url in organizer.files then Some(organizer.files[url]) else None;
  }
}
