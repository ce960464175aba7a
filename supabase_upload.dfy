/**
 * The backend upload page: the file chooser's mime filter, the upload loop
 * with its simulated per-file progress, and removal from the selection. The
 * backend upload call is a parameter: whether it succeeded for each file and
 * how many 100 ms progress ticks fired before it returned.
 */
module SupabaseUploadPage {
  import opened Seqs
  import opened Text
  import opened Types

  predicate IsMediaMime(f: FileInfo) {
    StartsWith(f.mimeType, "image/") || StartsWith(f.mimeType, "video/")
  }

  predicate IsNotMediaMime(f: FileInfo) {
    !IsMediaMime(f)
  }

  /** `handleFileSelect`: the chosen files with an image or video mime type, in
      order; every other file is reported. Together they are all the files. */
  function SplitChoice(files: seq<FileInfo>): (r: (seq<FileInfo>, seq<FileInfo>))
    ensures forall x :: x in r.0 <==> x in files && IsMediaMime(x)
    ensures forall x :: x in r.1 <==> x in files && !IsMediaMime(x)
    ensures |r.0| + |r.1| == |files|
  {
    FilterExactly(files, IsMediaMime);
    FilterExactly(files, IsNotMediaMime);
    FilterDisjointCounts(files, IsMediaMime, IsNotMediaMime);
    (Filter(files, IsMediaMime), Filter(files, IsNotMediaMime))
  }

  const ProgressCap: int := 90
  const ProgressDone: int := 100

  /** One progress tick: `Math.min(p + 10, 90)`. */
  function Tick(p: int): int {
    if p + 10 < ProgressCap then p + 10 else ProgressCap
  }

  /** The progress shown after `k` ticks from 0. */
  function SimulatedProgress(k: nat): int {
    if k == 0 then 0 else Tick(SimulatedProgress(k - 1))
  }

  /** The simulated progress is ten per tick, capped at 90. */
  lemma {:induction false} SimulatedProgressClosed(k: nat)
    ensures SimulatedProgress(k) == if 10 * k < ProgressCap then 10 * k else ProgressCap
  {
    if k > 0 {
      SimulatedProgressClosed(k - 1);
    }
  }

  /** The progress a file ends with: 100 after a successful upload, otherwise
      wherever the ticks left it. */
  function FinalProgress(succeeded: bool, ticks: nat): (p: int)
    ensures succeeded <==> p == ProgressDone
    ensures 0 <= p <= ProgressDone
  {
    SimulatedProgressClosed(ticks);
    if succeeded then ProgressDone else SimulatedProgress(ticks)
  }

  /** The files whose upload succeeded, in order. */
  function Successes(files: seq<FileInfo>, outcomes: seq<bool>): (r: seq<FileInfo>)
    requires |files| == |outcomes|
    ensures |r| <= |files|
    ensures forall x :: x in r <==> exists i :: 0 <= i < |files| && files[i] == x && outcomes[i]
  {
    if files == [] then []
    else Successes(files[..|files| - 1], outcomes[..|outcomes| - 1]) +
         (if outcomes[|outcomes| - 1] then [files[|files| - 1]] else [])
  }

  /** Every upload succeeding means every file is among the successes. */
  lemma {:induction false} AllSucceeded(files: seq<FileInfo>, outcomes: seq<bool>)
    requires |files| == |outcomes|
    requires forall i :: 0 <= i < |outcomes| ==> outcomes[i]
    ensures Successes(files, outcomes) == files
  {
    if files != [] {
      AllSucceeded(files[..|files| - 1], outcomes[..|outcomes| - 1]);
    }
  }

  /** One file's progress entry: set to 0, advanced once per tick while the
      call is pending, then set to 100 if the call succeeded. */
  method FileProgress(progress: map<nat, int>, key: nat, succeeded: bool, ticks: nat)
    returns (updated: map<nat, int>)
    ensures updated == progress[key := FinalProgress(succeeded, ticks)]
  {
    var p := 0;
    var t := 0;
    while t < ticks
      invariant 0 <= t <= ticks
      invariant p == SimulatedProgress(t)
    {
      p := Tick(p);
      t := t + 1;
    }
    if succeeded {
      p := ProgressDone;
    }
    updated := progress[key := p];
  }

  datatype UploadResult =
    | NothingSelected   // "select at least one file": nothing is uploaded
    | Finished(attempted: seq<FileInfo>, succeeded: seq<FileInfo>, finalProgress: map<nat, int>)

  class SupabaseUpload {
    var selectedFiles: seq<FileInfo>
    var uploadProgress: map<nat, int>   // keyed by the file's position in the selection
    var isUploading: bool

    constructor ()
      ensures selectedFiles == [] && uploadProgress == map[] && !isUploading
    {
      selectedFiles := [];
      uploadProgress := map[];
      isUploading := false;
    }

    /** `handleFileSelect`: the selection becomes the chosen media files; a null
        file list counts as an empty one. Returns the rejected files. */
    method HandleFileSelect(chosen: Option<seq<FileInfo>>) returns (rejected: seq<FileInfo>)
      modifies this
      ensures var files := if chosen.Some? then chosen.value else [];
        selectedFiles == SplitChoice(files).0 && rejected == SplitChoice(files).1
      ensures uploadProgress == old(uploadProgress) && isUploading == old(isUploading)
    {
      var files := if chosen.Some? then chosen.value else [];
      var split := SplitChoice(files);
      selectedFiles := split.0;
      rejected := split.1;
    }

    /** `handleUpload`. With an empty selection nothing happens but the error.
        Otherwise every selected file is attempted in order, whatever happened to
        the ones before it; each file's progress ticks towards 90 until its call
        returns and is set to 100 on success; afterwards the selection and the
        progress map are cleared. */
    method HandleUpload(outcomes: seq<bool>, ticks: seq<nat>) returns (r: UploadResult)
      requires |outcomes| == |selectedFiles| && |ticks| == |selectedFiles|
      modifies this
      ensures old(selectedFiles) == [] <==> r.NothingSelected?
      ensures r.NothingSelected? ==>
                selectedFiles == old(selectedFiles) && uploadProgress == old(uploadProgress) &&
                isUploading == old(isUploading)
      ensures r.Finished? ==>
                r.attempted == old(selectedFiles) &&
                r.succeeded == Successes(old(selectedFiles), outcomes) &&
                (forall j: nat :: j in r.finalProgress <==> j < |outcomes|) &&
                (forall j :: 0 <= j < |outcomes| ==>
                   j in r.finalProgress && r.finalProgress[j] == FinalProgress(outcomes[j], ticks[j])) &&
                selectedFiles == [] && uploadProgress == map[] && !isUploading
    {
      if |selectedFiles| == 0 {
        return NothingSelected;
      }
      isUploading := true;
      var files := selectedFiles;
      var progress: map<nat, int> := map[];
      var succeeded: seq<FileInfo> := [];
      var i := 0;
      while i < |files|
        invariant 0 <= i <= |files|
        invariant files == old(selectedFiles)
        invariant forall j: nat :: j in progress <==> j < i
        invariant forall j :: 0 <= j < i ==> progress[j] == FinalProgress(outcomes[j], ticks[j])
        invariant succeeded == Successes(files[..i], outcomes[..i])
      {
        progress := FileProgress(progress, i, outcomes[i], ticks[i]);
        if outcomes[i] {
          succeeded := succeeded + [files[i]];
        }
        uploadProgress := progress;
        assert files[..i + 1][..i] == files[..i];
        assert outcomes[..i + 1][..i] == outcomes[..i];
        i := i + 1;
      }
      assert files[..i] == files && outcomes[..i] == outcomes;
      selectedFiles := [];
      uploadProgress := map[];
      isUploading := false;
      r := Finished(files, succeeded, progress);
    }

    /** `removeFile`: drop the file at `index`, keeping the others in order. */
    method RemoveFile(index: int)
      modifies this
      ensures selectedFiles == RemoveAt(old(selectedFiles), index)
      ensures uploadProgress == old(uploadProgress) && isUploading == old(isUploading)
    {
      selectedFiles := RemoveAt(selectedFiles, index);
    }
  }
}
