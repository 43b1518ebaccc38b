/**
 * The audio upload page keeps a list of uploaded-file records. Dropping files
 * appends new entries; a repeating timer advances one entry's progress in steps
 * of ten until it reaches one hundred and the entry starts processing; a second
 * timer marks the entry completed. Only the list updates the timers apply are
 * modelled, not when they fire. Entry ids are inputs (the page draws them at
 * random and does not check them for uniqueness).
 */
module AudioUpload {

  import opened Wrappers

  datatype Status = Uploading | Processing | Completed | Error {
    /** The status as the page spells it. */
    function Name(): string {
      match this
      case Uploading => "uploading"
      case Processing => "processing"
      case Completed => "completed"
      case Error => "error"
    }
  }

  datatype UploadedFile = UploadedFile(
    id: string,
    name: string,
    size: nat,
    status: Status,
    progress: int,
    error: Option<string>)

  /** A file the drop zone accepted: only its name and size are read. */
  datatype DroppedFile = DroppedFile(name: string, size: nat)

  const Step: int := 10
  const Full: int := 100

  /** Every entry's progress lies between 0 and 100. */
  predicate ProgressInRange(files: seq<UploadedFile>) {
    forall i :: 0 <= i < |files| ==> 0 <= files[i].progress <= Full
  }

  /** The entries for a drop, one per accepted file, each uploading from 0 with the given id. */
  function NewEntries(accepted: seq<DroppedFile>, ids: seq<string>): (r: seq<UploadedFile>)
    requires |ids| == |accepted|
    ensures |r| == |accepted|
    ensures forall i :: 0 <= i < |r| ==>
      r[i].id == ids[i] && r[i].name == accepted[i].name && r[i].size == accepted[i].size
      && r[i].status == Uploading && r[i].progress == 0 && r[i].error == None
    ensures ProgressInRange(r)
  {
    seq(|accepted|, i requires 0 <= i < |accepted| =>
      UploadedFile(ids[i], accepted[i].name, accepted[i].size, Uploading, 0, None))
  }

  /** One timer step applied to one entry. */
  function TickFile(f: UploadedFile, fileId: string): UploadedFile {
    if f.id == fileId then
      var newProgress := f.progress + Step;
      if newProgress >= Full then f.(progress := Full, status := Processing)
      else f.(progress := newProgress)
    else f
  }

  /** The interval's updater: advance every entry carrying `fileId`. */
  function Tick(files: seq<UploadedFile>, fileId: string): (r: seq<UploadedFile>)
    ensures |r| == |files|
    ensures forall i :: 0 <= i < |files| && files[i].id != fileId ==> r[i] == files[i]
    ensures forall i :: 0 <= i < |files| && files[i].id == fileId ==>
      r[i].id == files[i].id && r[i].name == files[i].name && r[i].size == files[i].size
      && r[i].error == files[i].error
      && (files[i].progress + Step < Full ==> r[i].progress == files[i].progress + Step && r[i].status == files[i].status)
      && (files[i].progress + Step >= Full ==> r[i].progress == Full && r[i].status == Processing)
  {
    seq(|files|, i requires 0 <= i < |files| => TickFile(files[i], fileId))
  }

  /** A tick keeps every progress within 0 and 100. */
  lemma TickKeepsRange(files: seq<UploadedFile>, fileId: string)
    requires ProgressInRange(files)
    ensures ProgressInRange(Tick(files, fileId))
  {
  }

  /** The timeout's updater: mark every entry carrying `fileId` completed, progress untouched. */
  function Complete(files: seq<UploadedFile>, fileId: string): (r: seq<UploadedFile>)
    ensures |r| == |files|
    ensures forall i :: 0 <= i < |files| && files[i].id != fileId ==> r[i] == files[i]
    ensures forall i :: 0 <= i < |files| && files[i].id == fileId ==>
      && r[i].status == Completed && r[i].progress == files[i].progress
      && r[i].id == files[i].id && r[i].name == files[i].name
      && r[i].size == files[i].size && r[i].error == files[i].error
  {
    seq(|files|, i requires 0 <= i < |files| =>
      if files[i].id == fileId then files[i].(status := Completed) else files[i])
  }

  /** `n` successive ticks for the same id. */
  function Ticks(files: seq<UploadedFile>, fileId: string, n: nat): (r: seq<UploadedFile>)
    ensures |r| == |files|
  {
    if n == 0 then files else Tick(Ticks(files, fileId, n - 1), fileId)
  }

  /**
   * After `n` ticks an entry carrying the id has progress `p + 10n` while that
   * stays below 100; from then on it sits at exactly 100 and is processing.
   */
  lemma {:induction false} TicksProgress(files: seq<UploadedFile>, fileId: string, n: nat, i: int)
    requires 0 <= i < |files| && files[i].id == fileId
    ensures var f := files[i];
      var g := Ticks(files, fileId, n)[i];
      && g.id == f.id && g.name == f.name && g.size == f.size && g.error == f.error
      && (n == 0 || f.progress + Step * n < Full ==> g.progress == f.progress + Step * n && g.status == f.status)
      && (n > 0 && f.progress + Step * n >= Full ==> g.progress == Full && g.status == Processing)
  {
    if n > 0 {
      TicksProgress(files, fileId, n - 1, i);
    }
  }

  /** Ticks leave every entry with another id as it was. */
  lemma {:induction false} TicksOthers(files: seq<UploadedFile>, fileId: string, n: nat, i: int)
    requires 0 <= i < |files| && files[i].id != fileId
    ensures Ticks(files, fileId, n)[i] == files[i]
  {
    if n > 0 {
      TicksOthers(files, fileId, n - 1, i);
    }
  }

  /** A freshly dropped entry needs exactly ten ticks: after nine it is at 90, after ten at 100 and processing. */
  lemma TenTicksFromZero(files: seq<UploadedFile>, fileId: string, i: int)
    requires 0 <= i < |files| && files[i].id == fileId && files[i].progress == 0
    ensures Ticks(files, fileId, 9)[i].progress == 90 && Ticks(files, fileId, 9)[i].status == files[i].status
    ensures Ticks(files, fileId, 10)[i].progress == Full && Ticks(files, fileId, 10)[i].status == Processing
  {
    TicksProgress(files, fileId, 9, i);
    TicksProgress(files, fileId, 10, i);
  }

  /**
   * The two timers are independent: a tick that fires after completion takes
   * the entry back to processing once it reaches 100, and otherwise leaves it
   * completed with ten more progress.
   */
  lemma TickAfterComplete(files: seq<UploadedFile>, fileId: string, i: int)
    requires 0 <= i < |files| && files[i].id == fileId
    ensures var g := Tick(Complete(files, fileId), fileId)[i];
      && (files[i].progress + Step >= Full ==> g.status == Processing && g.progress == Full)
      && (files[i].progress + Step < Full ==> g.status == Completed && g.progress == files[i].progress + Step)
  {
  }

  /** `filter(file => file.status === 'completed')`. */
  function CompletedFiles(files: seq<UploadedFile>): (r: seq<UploadedFile>)
    ensures |r| <= |files|
    ensures forall j :: 0 <= j < |r| ==> r[j].status == Completed
    ensures forall i :: 0 <= i < |files| && files[i].status == Completed ==> files[i] in r
    ensures forall j :: 0 <= j < |r| ==> r[j] in files
  {
    if files == [] then []
    else
      var rest := CompletedFiles(files[1..]);
      assert forall i :: 1 <= i < |files| ==> files[i] == files[1..][i - 1];
      if files[0].status == Completed then [files[0]] + rest else rest
  }

  /** Every completed entry is kept as often as it occurs, and no other entry is. */
  lemma {:induction false} CompletedFilesMultiset(files: seq<UploadedFile>)
    ensures forall x ::
      multiset(CompletedFiles(files))[x] == if x.status == Completed then multiset(files)[x] else 0
  {
    if files != [] {
      CompletedFilesMultiset(files[1..]);
      assert files == [files[0]] + files[1..];
      var h := if files[0].status == Completed then [files[0]] else [];
      assert multiset(files) == multiset([files[0]]) + multiset(files[1..]);
      assert multiset(CompletedFiles(files)) == multiset(h) + multiset(CompletedFiles(files[1..]));
    }
  }

  /** The indices of the completed entries. */
  function CompletedIndices(files: seq<UploadedFile>): set<int> {
    set i | 0 <= i < |files| && files[i].status == Completed
  }

  /** Filtering distributes over concatenation, keeping the completed entries in order. */
  lemma {:induction false} CompletedFilesConcat(a: seq<UploadedFile>, b: seq<UploadedFile>)
    ensures CompletedFiles(a + b) == CompletedFiles(a) + CompletedFiles(b)
  {
    if a == [] {
      assert a + b == b;
    } else {
      assert (a + b)[0] == a[0];
      assert (a + b)[1..] == a[1..] + b;
      CompletedFilesConcat(a[1..], b);
      if a[0].status == Completed {
        assert [a[0]] + (CompletedFiles(a[1..]) + CompletedFiles(b))
            == ([a[0]] + CompletedFiles(a[1..])) + CompletedFiles(b);
      }
    }
  }

  /** Appending one entry extends the completed list by that entry exactly when it is completed. */
  lemma CompletedFilesSnoc(xs: seq<UploadedFile>, x: UploadedFile)
    ensures CompletedFiles(xs + [x]) == CompletedFiles(xs) + (if x.status == Completed then [x] else [])
  {
    CompletedFilesConcat(xs, [x]);
    assert [x][1..] == [];
  }

  /** Appending one entry adds its position to the completed indices exactly when it is completed. */
  lemma CompletedIndicesSnoc(xs: seq<UploadedFile>, x: UploadedFile)
    ensures CompletedIndices(xs + [x]) == CompletedIndices(xs) + (if x.status == Completed then {|xs|} else {})
  {
    forall i | 0 <= i < |xs|
      ensures (xs + [x])[i] == xs[i]
    {
    }
  }

  /** `completedFiles.length` is the number of positions holding a completed entry. */
  lemma {:induction false} CompletedCountIsIndexCount(files: seq<UploadedFile>)
    ensures |CompletedFiles(files)| == |CompletedIndices(files)|
  {
    if files != [] {
      var xs, x := files[..|files| - 1], files[|files| - 1];
      assert files == xs + [x];
      CompletedFilesSnoc(xs, x);
      CompletedIndicesSnoc(xs, x);
      CompletedCountIsIndexCount(xs);
      assert |xs| !in CompletedIndices(xs);
    }
  }

  /** `hasCompletedFiles`: some entry is completed exactly when the completed list is non-empty. */
  lemma HasCompletedIff(files: seq<UploadedFile>)
    ensures |CompletedFiles(files)| > 0 <==> exists i :: 0 <= i < |files| && files[i].status == Completed
  {
    var r := CompletedFiles(files);
    if |r| > 0 {
      assert r[0] in files;
    }
  }

  /** Completion never lowers the completed count, and afterwards every entry with that id is counted. */
  lemma {:induction false} CompleteCount(files: seq<UploadedFile>, fileId: string)
    ensures |CompletedFiles(Complete(files, fileId))| >= |CompletedFiles(files)|
    ensures forall i :: 0 <= i < |files| && files[i].id == fileId ==>
      Complete(files, fileId)[i] in CompletedFiles(Complete(files, fileId))
  {
    if files != [] {
      var c := Complete(files, fileId);
      assert c[1..] == Complete(files[1..], fileId);
      CompleteCount(files[1..], fileId);
    }
  }

  /** `getStatusColor`: the chip colour for a status string. */
  function StatusColor(status: string): (r: string)
    ensures r == "success" <==> status == "completed"
    ensures r == "error" <==> status == "error"
    ensures r == "warning" <==> status == "processing"
    ensures r == "default" <==> status !in {"completed", "error", "processing"}
  {
    if status == "completed" then "success"
    else if status == "error" then "error"
    else if status == "processing" then "warning"
    else "default"
  }

  /** The colours of the four statuses an entry can have. */
  lemma StatusColors()
    ensures StatusColor(Uploading.Name()) == "default"
    ensures StatusColor(Processing.Name()) == "warning"
    ensures StatusColor(Completed.Name()) == "success"
    ensures StatusColor(Error.Name()) == "error"
  {
  }

  /** The page's upload list, replaced wholesale by each updater. */
  class UploadList {
    var files: seq<UploadedFile>

    ghost predicate Valid()
      reads this
    {
      ProgressInRange(files)
    }

    constructor ()
      ensures Valid() && files == []
    {
      files := [];
    }

    /** `onDrop`: append one uploading entry per accepted file, after the existing ones. */
    method Drop(accepted: seq<DroppedFile>, ids: seq<string>)
      requires Valid() && |ids| == |accepted|
      modifies this
      ensures Valid()
      ensures files == old(files) + NewEntries(accepted, ids)
    {
      files := files + NewEntries(accepted, ids);
    }

    /** One firing of the progress interval for `fileId`. */
    method ApplyTick(fileId: string)
      requires Valid()
      modifies this
      ensures Valid()
      ensures files == Tick(old(files), fileId)
    {
      TickKeepsRange(files, fileId);
      files := Tick(files, fileId);
    }

    /** The completion timeout for `fileId`. */
    method ApplyComplete(fileId: string)
      requires Valid()
      modifies this
      ensures Valid()
      ensures files == Complete(old(files), fileId)
    {
      files := Complete(files, fileId);
    }

    /** The number of completed entries, and whether there is any. */
    method CompletedCount() returns (count: nat, hasCompleted: bool)
      ensures count <= |files|
      ensures count == |CompletedFiles(files)| == |CompletedIndices(files)|
      ensures hasCompleted <==> exists i :: 0 <= i < |files| && files[i].status == Completed
    {
      count := |CompletedFiles(files)|;
      hasCompleted := count > 0;
      HasCompletedIff(files);
      CompletedCountIsIndexCount(files);
    }
  }
}
