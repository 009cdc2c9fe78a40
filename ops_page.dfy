/**
 * The operations screen: a list of files waiting to be moved to their
 * destination folders, a queue of inbound-file notifications, and a search
 * filter over the files. A transfer marks the file `Processing` at once and
 * schedules a one-shot timer that later marks it `Transferred`; here the
 * scheduled timers are a queue and their firing is the method `FireTimer`.
 */
module OpsPage {
  import opened Text
  import opened Seqs

  datatype FileStatus = ReadyToTransfer | Processing | Transferred

  datatype TransferFile = TransferFile(
    id: string,
    fileName: string,
    destinationFolder: string,
    status: FileStatus,
    isTransferred: bool)

  datatype FileNotification = FileNotification(id: string, fileName: string, destinationFolder: string)

  const Destinations: seq<string> := ["Client_Folder_A", "Client_Folder_B", "Compliance_Review", "Archive_Backup"]
  const TypeOptions: seq<string> := ["Quarterly", "Daily", "Audit", "Summary"]

  const NewFileNotifications: seq<FileNotification> := [
    FileNotification("NEW-1", "Q4_Financial_Summary.pdf", Destinations[0]),
    FileNotification("NEW-2", "Daily_Risk_Log_T+1.pdf", Destinations[1]),
    FileNotification("NEW-3", "Compliance_Check_Oct.pdf", Destinations[2])
  ]

  /** The id of the i-th generated file, `FILE-${1000 + i}`. */
  function FileId(i: nat): string {
    "FILE-" + NatToDecimal(1000 + i)
  }

  /** Generated files never share an id. */
  lemma FileIdInjective(i: nat, j: nat)
    ensures FileId(i) == FileId(j) ==> i == j
  {
    PrefixCancel("FILE-", NatToDecimal(1000 + i), NatToDecimal(1000 + j));
    NatToDecimalInjective(1000 + i, 1000 + j);
  }

  /** `generateRemoteFiles`: files 1..count, all ready to transfer. */
  method GenerateRemoteFiles(count: nat) returns (files: seq<TransferFile>)
    ensures |files| == count
    ensures forall k :: 0 <= k < count ==>
      files[k].id == FileId(k + 1) && files[k].status == ReadyToTransfer && !files[k].isTransferred
    ensures forall k :: 0 <= k < count ==>
      && files[k].fileName == "Report_" + TypeOptions[(k + 1) % 4] + "_" + NatToDecimal(k + 1) + ".pdf"
      && files[k].destinationFolder == Destinations[(k + 1) % 4]
  {
    files := [];
    for i := 1 to count + 1
      invariant |files| == i - 1
      invariant forall k :: 0 <= k < i - 1 ==>
        files[k].id == FileId(k + 1) && files[k].status == ReadyToTransfer && !files[k].isTransferred
      invariant forall k :: 0 <= k < i - 1 ==>
        && files[k].fileName == "Report_" + TypeOptions[(k + 1) % 4] + "_" + NatToDecimal(k + 1) + ".pdf"
        && files[k].destinationFolder == Destinations[(k + 1) % 4]
    {
      files := files + [TransferFile(
        "FILE-" + NatToDecimal(1000 + i),
        "Report_" + TypeOptions[i % 4] + "_" + NatToDecimal(i) + ".pdf",
        Destinations[i % 4],
        ReadyToTransfer,
        false)];
    }
  }

  /** A file's flag agrees with its status. */
  predicate Consistent(f: TransferFile) {
    f.isTransferred <==> f.status == Transferred
  }

  /** Position of a status along `Ready to Transfer -> Processing -> Transferred`. */
  function Rank(s: FileStatus): nat {
    match s
    case ReadyToTransfer => 0
    case Processing => 1
    case Transferred => 2
  }

  /**
   * `after` is `before` with some statuses moved forward along the chain (so
   * a `Transferred` file stays `Transferred`), ids, names and folders kept.
   */
  ghost predicate Advances(before: seq<TransferFile>, after: seq<TransferFile>) {
    && |after| == |before|
    && forall i :: 0 <= i < |before| ==>
      && after[i].id == before[i].id
      && after[i].fileName == before[i].fileName
      && after[i].destinationFolder == before[i].destinationFolder
      && Rank(before[i].status) <= Rank(after[i].status)
  }

  /** The guard of `handleTransfer`. */
  predicate Transferable(f: TransferFile, id: string) {
    f.id == id && f.status != Transferred && f.status != Processing
  }

  /** The list `handleTransfer(id)` installs at once. */
  function StartTransfer(files: seq<TransferFile>, id: string): (r: seq<TransferFile>)
    ensures |r| == |files|
    ensures forall i :: 0 <= i < |files| && files[i].id == id && files[i].status == ReadyToTransfer ==>
      r[i] == files[i].(status := Processing)
    ensures forall i :: 0 <= i < |files| && (files[i].id != id || files[i].status != ReadyToTransfer) ==>
      r[i] == files[i]
    ensures Advances(files, r)
  {
    Map(files, (f: TransferFile) => if Transferable(f, id) then f.(status := Processing) else f)
  }

  /** How many timers `handleTransfer(id)` starts: one per file it moves to `Processing`. */
  function TimersStarted(files: seq<TransferFile>, id: string): (n: nat)
    ensures n <= |files|
    ensures n > 0 <==> exists i :: 0 <= i < |files| && Transferable(files[i], id)
  {
    var moved := Filter(files, (f: TransferFile) => Transferable(f, id));
    assert forall i :: 0 <= i < |files| && Transferable(files[i], id) ==> files[i] in moved;
    assert |moved| > 0 ==> moved[0] in moved;
    |moved|
  }

  /** The list the deferred callback installs when the timer for `id` fires. */
  function Completed(files: seq<TransferFile>, id: string): (r: seq<TransferFile>)
    ensures |r| == |files|
    ensures forall i :: 0 <= i < |files| && files[i].id == id ==>
      r[i] == files[i].(status := Transferred, isTransferred := true)
    ensures forall i :: 0 <= i < |files| && files[i].id != id ==> r[i] == files[i]
    ensures Advances(files, r)
  {
    Map(files, (f: TransferFile) => if f.id == id then f.(status := Transferred, isTransferred := true) else f)
  }

  /** A second transfer of the same id changes nothing and starts no timer. */
  lemma StartTransferIdempotent(files: seq<TransferFile>, id: string)
    ensures StartTransfer(StartTransfer(files, id), id) == StartTransfer(files, id)
    ensures TimersStarted(StartTransfer(files, id), id) == 0
  {
    var once := StartTransfer(files, id);
    forall i | 0 <= i < |once| ensures !Transferable(once[i], id) {
      assert files[i].status == ReadyToTransfer && files[i].id == id ==> once[i].status == Processing;
    }
  }

  /** Once every file with the id has left `Ready to Transfer`, transferring it again is a no-op. */
  lemma TransferAfterStartIsNoOp(files: seq<TransferFile>, id: string)
    requires forall i :: 0 <= i < |files| && files[i].id == id ==> files[i].status != ReadyToTransfer
    ensures StartTransfer(files, id) == files
    ensures TimersStarted(files, id) == 0
  {
  }

  /** A ready file that is transferred and whose timer then fires ends `Transferred`, flag set. */
  lemma TransferThenComplete(files: seq<TransferFile>, i: int)
    requires 0 <= i < |files| && files[i].status == ReadyToTransfer
    ensures var id := files[i].id;
            && StartTransfer(files, id)[i].status == Processing
            && TimersStarted(files, id) > 0
            && Completed(StartTransfer(files, id), id)[i] == files[i].(status := Transferred, isTransferred := true)
  {
    assert Transferable(files[i], files[i].id);
  }

  /** Transfer and completion keep every file's flag in step with its status. */
  lemma TransitionsKeepConsistency(files: seq<TransferFile>, id: string)
    requires forall f :: f in files ==> Consistent(f)
    ensures forall f :: f in StartTransfer(files, id) ==> Consistent(f)
    ensures forall f :: f in Completed(files, id) ==> Consistent(f)
  {
    var started, completed := StartTransfer(files, id), Completed(files, id);
    forall f | f in started ensures Consistent(f) {
      var i :| 0 <= i < |started| && started[i] == f;
      assert Consistent(files[i]);
    }
    forall f | f in completed ensures Consistent(f) {
      var i :| 0 <= i < |completed| && completed[i] == f;
      assert Consistent(files[i]);
    }
  }

  /**
   * A transfer queues one timer per file it moves to `Processing`, so every
   * `Processing` file keeps a queued timer.
   */
  lemma TransferKeepsTimersCovering(files: seq<TransferFile>, timers: seq<string>, id: string)
    requires forall f :: f in files && f.status == Processing ==> f.id in timers
    ensures forall f :: f in StartTransfer(files, id) && f.status == Processing ==>
      f.id in timers + Repeat(id, TimersStarted(files, id))
  {
    var started, queued := StartTransfer(files, id), timers + Repeat(id, TimersStarted(files, id));
    forall f | f in started && f.status == Processing ensures f.id in queued {
      var i :| 0 <= i < |started| && started[i] == f;
      if Transferable(files[i], id) {
        assert queued[|queued| - 1] == id;
      } else {
        assert files[i] == f && f.id in timers;
        assert forall x :: x in timers ==> x in queued;
      }
    }
  }

  /** The file that `handleGetFile` builds from a notification. */
  function NewEntry(n: FileNotification): (f: TransferFile)
    ensures f.id == n.id && f.fileName == n.fileName && f.destinationFolder == n.destinationFolder
    ensures f.status == ReadyToTransfer && !f.isTransferred && Consistent(f)
  {
    TransferFile(n.id, n.fileName, n.destinationFolder, ReadyToTransfer, false)
  }

  /** The notification queue after `handleGetFile(n)`. */
  function WithoutNotification(queue: seq<FileNotification>, id: string): (r: seq<FileNotification>)
    ensures IsSubsequence(r, queue)
    ensures forall m :: m in r <==> m in queue && m.id != id
    ensures forall m :: multiset(r)[m] == if m.id != id then multiset(queue)[m] else 0
  {
    Filter(queue, (m: FileNotification) => m.id != id)
  }

  predicate FileMatches(f: TransferFile, term: string) {
    IncludesIgnoreCase(f.fileName, term) || IncludesIgnoreCase(f.id, term)
  }

  /** `filteredFiles`: the files whose name or id contains the search term, ignoring case. */
  function FilterFiles(files: seq<TransferFile>, term: string): (r: seq<TransferFile>)
    ensures IsSubsequence(r, files)
    ensures forall f :: f in r <==> f in files && FileMatches(f, term)
    ensures forall f :: multiset(r)[f] == if FileMatches(f, term) then multiset(files)[f] else 0
    ensures term == "" ==> r == files
  {
    var p := (f: TransferFile) => FileMatches(f, term);
    if term == "" then
      FilterKeepsAll(files, p);
      Filter(files, p)
    else
      Filter(files, p)
  }

  /** `n` copies of `id`: the timers started by one transfer. */
  function Repeat(id: string, n: nat): (r: seq<string>)
    ensures |r| == n && forall k :: 0 <= k < n ==> r[k] == id
  {
    seq(n, _ => id)
  }

  /** The operations screen's component state; each method is one of its handlers. */
  class Ops {
    var files: seq<TransferFile>
    var notifications: seq<FileNotification>
    var searchTerm: string
    /** File ids of the completion timers started and not yet fired, oldest first. */
    var timers: seq<string>

    /**
     * Every file's flag agrees with its status, and every file in
     * `Processing` has a completion timer still to fire.
     */
    ghost predicate Valid()
      reads this
    {
      && (forall f :: f in files ==> Consistent(f))
      && (forall f :: f in files && f.status == Processing ==> f.id in timers)
    }

    /** The state on mount: 50 generated files, three notifications, no timers. */
    constructor ()
      ensures Valid()
      ensures |files| == 50 && forall k :: 0 <= k < 50 ==> files[k].id == FileId(k + 1)
      ensures forall k :: 0 <= k < 50 ==> files[k].status == ReadyToTransfer && !files[k].isTransferred
      ensures forall j, k :: 0 <= j < k < 50 ==> files[j].id != files[k].id
      ensures notifications == NewFileNotifications && searchTerm == "" && timers == []
    {
      var generated := GenerateRemoteFiles(50);
      files := generated;
      notifications := NewFileNotifications;
      searchTerm := "";
      timers := [];
      new;
      forall j, k | 0 <= j < k < 50
        ensures files[j].id != files[k].id
      {
        FileIdInjective(j + 1, k + 1);
      }
    }

    method SetSearchTerm(term: string)
      requires Valid()
      modifies this
      ensures Valid()
      ensures searchTerm == term
      ensures files == old(files) && notifications == old(notifications) && timers == old(timers)
    {
      searchTerm := term;
    }

    /** `handleTransfer(id)`: matching ready files start processing, each with a timer. */
    method Transfer(id: string)
      requires Valid()
      modifies this
      ensures Valid()
      ensures files == StartTransfer(old(files), id)
      ensures timers == old(timers) + Repeat(id, TimersStarted(old(files), id))
      ensures Advances(old(files), files)
      ensures notifications == old(notifications) && searchTerm == old(searchTerm)
    {
      var started := TimersStarted(files, id);
      TransitionsKeepConsistency(files, id);
      TransferKeepsTimersCovering(files, timers, id);
      files := StartTransfer(files, id);
      timers := timers + Repeat(id, started);
    }

    /** The oldest pending completion timer fires; with none pending nothing happens. */
    method FireTimer() returns (fired: bool)
      requires Valid()
      modifies this
      ensures Valid()
      ensures fired <==> old(timers) != []
      ensures fired ==> files == Completed(old(files), old(timers)[0]) && timers == old(timers)[1..]
      ensures !fired ==> files == old(files) && timers == old(timers)
      ensures Advances(old(files), files)
      ensures notifications == old(notifications) && searchTerm == old(searchTerm)
    {
      fired := timers != [];
      if !fired {
        return;
      }
      var id := timers[0];
      ghost var before, queue := files, timers;
      files := Completed(files, id);
      timers := timers[1..];
      TransitionsKeepConsistency(before, id);
      forall f | f in files && f.status == Processing ensures f.id in timers {
        var i :| 0 <= i < |files| && files[i] == f;
        assert before[i].id != id && before[i] == f;
        assert queue == [queue[0]] + timers;
      }
    }

    /** `handleGetFile(n)`: the notification leaves the queue and a ready file heads the list. */
    method GetFile(n: FileNotification)
      requires Valid()
      modifies this
      ensures Valid()
      ensures notifications == WithoutNotification(old(notifications), n.id)
      ensures files == [NewEntry(n)] + old(files)
      ensures |files| == |old(files)| + 1
      ensures timers == old(timers) && searchTerm == old(searchTerm)
    {
      notifications := WithoutNotification(notifications, n.id);
      files := [NewEntry(n)] + files;
    }
  }
}
