/**
 * The drag-and-drop selector: which dropped files it accepts, how a drop or
 * a file-input choice extends the selection owned by the page, and the
 * `isDragOver` highlight flag.
 */
module DragDrop {
  import opened Seqs
  import opened Text
  import opened Types

  /** The extensions accepted regardless of the mime type. */
  const AcceptedExtensions: seq<string> := [".gif", ".jpg", ".jpeg", ".webp", ".png"]

  /** A dropped file is accepted when its mime type is an image or video type
      or its lower-cased name ends with an accepted extension. */
  predicate IsAcceptedDrop(f: FileInfo) {
    StartsWith(f.mimeType, "image/") || StartsWith(f.mimeType, "video/") ||
    exists i :: 0 <= i < |AcceptedExtensions| && EndsWith(Lower(f.name), AcceptedExtensions[i])
  }

  /** The accepted part of a drop, in drop order. */
  function AcceptedDrop(files: seq<FileInfo>): (r: seq<FileInfo>)
    ensures forall x :: x in r <==> x in files && IsAcceptedDrop(x)
    ensures |r| <= |files|
  {
    FilterExactly(files, IsAcceptedDrop);
    Filter(files, IsAcceptedDrop)
  }

  /** The selection after a drop: the accepted files after the current
      selection, or the selection untouched when nothing was accepted. */
  function AfterDrop(selected: seq<FileInfo>, dropped: seq<FileInfo>): (r: seq<FileInfo>)
    ensures AcceptedDrop(dropped) == [] ==> r == selected
    ensures r == selected + AcceptedDrop(dropped)
  {
    var accepted := AcceptedDrop(dropped);
    if |accepted| > 0 then selected + accepted else selected
  }

  /** Dropping files in two batches selects the same files, in the same order,
      as dropping them together. */
  lemma DropInBatches(selected: seq<FileInfo>, a: seq<FileInfo>, b: seq<FileInfo>)
    ensures AfterDrop(AfterDrop(selected, a), b) == AfterDrop(selected, a + b)
  {
    FilterConcat(a, b, IsAcceptedDrop);
  }

  /** A file whose name ends in ".PNG" is accepted whatever mime type the
      browser reports. */
  lemma UpperCaseExtensionAccepted(base: string, mime: string)
    ensures IsAcceptedDrop(FileInfo(base + ".PNG", mime, 0))
  {
    var name := base + ".PNG";
    assert Lower(name)[|name| - 4..] == ".png";
    assert EndsWith(Lower(name), AcceptedExtensions[4]);
  }

  /** The drop zone: its highlight flag, and the page's selection that it
      extends through `onFilesSelect`. */
  class DragDropUpload {
    var isDragOver: bool
    var selectedFiles: seq<FileInfo>

    constructor (selected: seq<FileInfo>)
      ensures !isDragOver && selectedFiles == selected
    {
      isDragOver := false;
      selectedFiles := selected;
    }

    method DragOver()
      modifies this
      ensures isDragOver && selectedFiles == old(selectedFiles)
    {
      isDragOver := true;
    }

    method DragLeave()
      modifies this
      ensures !isDragOver && selectedFiles == old(selectedFiles)
    {
      isDragOver := false;
    }

    /** `handleDrop`: clear the highlight and append the accepted files. */
    method Drop(dropped: seq<FileInfo>)
      modifies this
      ensures !isDragOver
      ensures selectedFiles == AfterDrop(old(selectedFiles), dropped)
    {
      isDragOver := false;
      selectedFiles := AfterDrop(selectedFiles, dropped);
    }

    /** `handleFileSelect`: every chosen file is appended, unfiltered; a null
        file list changes nothing. */
    method FileSelect(chosen: Option<seq<FileInfo>>)
      modifies this
      ensures chosen.Some? ==> selectedFiles == old(selectedFiles) + chosen.value
      ensures chosen.None? ==> selectedFiles == old(selectedFiles)
      ensures isDragOver == old(isDragOver)
    {
      if chosen.Some? {
        selectedFiles := selectedFiles + chosen.value;
      }
    }
  }
}
