/**
  VideoUploadCard: the file chosen for upload, the drag highlight, the
  hidden file input, and the human-readable file size.
*/
module UploadCard {
  import opened Domain

  /** A file the browser hands over (by drop or by the file input) is a
      video when its MIME type starts with "video/". */
  predicate IsVideo(f: VideoFile) {
    "video/" <= f.mimeType
  }

  /** The selection after a drop: only when enabled, only the first file,
      and only when it is a video.  `files` is None when the event carries
      no file list. */
  function DropSelection(current: Option<VideoFile>, isDisabled: bool, files: Option<seq<VideoFile>>): (next: Option<VideoFile>)
    ensures next != current ==>
      !isDisabled && files.Some? && |files.value| > 0 && IsVideo(files.value[0]) && next == Some(files.value[0])
    ensures !isDisabled && files.Some? && |files.value| > 0 && IsVideo(files.value[0]) ==> next == Some(files.value[0])
  {
    if isDisabled then current
    else if files.Some? && |files.value| > 0 && IsVideo(files.value[0]) then Some(files.value[0])
    else current
  }

  /** The selection after the file input changes: the first file, with no
      MIME check and no disabled check. */
  function ChangeSelection(current: Option<VideoFile>, files: Option<seq<VideoFile>>): (next: Option<VideoFile>)
    ensures files.Some? && |files.value| > 0 ==> next == Some(files.value[0])
    ensures files.None? || |files.value| == 0 ==> next == current
  {
    if files.Some? && |files.value| > 0 then Some(files.value[0]) else current
  }

  /** A drop on a disabled card, or of a non-video, never replaces the
      selection; a file input change may select a non-video. */
  lemma DropIsStricterThanChange(current: Option<VideoFile>, isDisabled: bool, files: Option<seq<VideoFile>>)
    ensures DropSelection(current, isDisabled, files) != current ==>
      DropSelection(current, isDisabled, files) == ChangeSelection(current, files)
    ensures DropSelection(current, isDisabled, files).Some? && DropSelection(current, isDisabled, files) != current ==>
      IsVideo(DropSelection(current, isDisabled, files).value)
  {
  }

  /** Dropping the same files twice selects what dropping them once does. */
  lemma DropIdempotent(current: Option<VideoFile>, isDisabled: bool, files: Option<seq<VideoFile>>)
    ensures DropSelection(DropSelection(current, isDisabled, files), isDisabled, files)
         == DropSelection(current, isDisabled, files)
  {
  }

  /** The upload button is enabled only with a file selected on an enabled card. */
  predicate UploadEnabled(selected: Option<VideoFile>, isDisabled: bool) {
    selected.Some? && !isDisabled
  }

  /** The card's state hooks and the file input its ref points at
      (`inputValue` is None while the input is not mounted). */
  class VideoUploadCard {
    var selectedFile: Option<VideoFile>
    var isDragging: bool
    var inputValue: Option<string>

    constructor ()
      ensures selectedFile == None && !isDragging && inputValue == None
    {
      selectedFile := None;
      isDragging := false;
      inputValue := None;
    }

    method DragOver(isDisabled: bool)
      modifies this
      ensures isDragging == (old(isDragging) || !isDisabled)
      ensures selectedFile == old(selectedFile) && inputValue == old(inputValue)
    {
      if !isDisabled {
        isDragging := true;
      }
    }

    method DragLeave()
      modifies this
      ensures !isDragging
      ensures selectedFile == old(selectedFile) && inputValue == old(inputValue)
    {
      isDragging := false;
    }

    method Drop(isDisabled: bool, files: Option<seq<VideoFile>>)
      modifies this
      ensures !isDragging
      ensures selectedFile == DropSelection(old(selectedFile), isDisabled, files)
      ensures inputValue == old(inputValue)
    {
      isDragging := false;
      if isDisabled {
        return;
      }
      if files.Some? && |files.value| > 0 {
        var file := files.value[0];
        if "video/" <= file.mimeType {
          selectedFile := Some(file);
        }
      }
    }

    method FileChange(files: Option<seq<VideoFile>>)
      modifies this
      ensures selectedFile == ChangeSelection(old(selectedFile), files)
      ensures isDragging == old(isDragging) && inputValue == old(inputValue)
    {
      if files.Some? && |files.value| > 0 {
        selectedFile := Some(files.value[0]);
      }
    }

    /** The files handed to onUpload by one click: the selection, once, or nothing. */
    method UploadClick() returns (uploads: seq<VideoFile>)
      ensures |uploads| <= 1
      ensures |uploads| == 1 <==> selectedFile.Some?
      ensures forall i :: 0 <= i < |uploads| ==> Some(uploads[i]) == selectedFile
    {
      uploads := [];
      if selectedFile.Some? {
        uploads := uploads + [selectedFile.value];
      }
    }

    /** Clicking the drop zone opens the file picker unless the card is disabled. */
    method ZoneClick(isDisabled: bool) returns (opensPicker: bool)
      ensures opensPicker <==> !isDisabled && inputValue.Some?
    {
      opensPicker := !isDisabled && inputValue.Some?;
    }

    method ClearFile()
      modifies this
      ensures selectedFile == None
      ensures inputValue == if old(inputValue).Some? then Some("") else None
      ensures isDragging == old(isDragging)
    {
      selectedFile := None;
      if inputValue.Some? {
        inputValue := Some("");
      }
    }
  }

  // ---------------------------------------------------------------------------
  // formatFileSize

  const Kilo: nat := 1024

  function Pow(n: nat): (p: nat)
    ensures p >= 1
  {
    if n == 0 then 1 else Kilo * Pow(n - 1)
  }

  lemma {:induction false} PowMonotone(m: nat, n: nat)
    requires m <= n
    ensures Pow(m) <= Pow(n)
    decreases n
  {
    if m < n {
      PowMonotone(m, n - 1);
    }
  }

  /** floor(log base 1024 of bytes), on integers. */
  function UnitIndex(bytes: nat): (i: nat)
    requires bytes > 0
    ensures Pow(i) <= bytes < Pow(i + 1)
  {
    if bytes < Kilo then 0 else 1 + UnitIndex(bytes / Kilo)
  }

  /** UnitIndex is the only index whose unit range holds the size. */
  lemma {:induction false} UnitIndexUnique(bytes: nat, k: nat)
    requires bytes > 0 && Pow(k) <= bytes < Pow(k + 1)
    ensures k == UnitIndex(bytes)
  {
    var i := UnitIndex(bytes);
    if k < i {
      PowMonotone(k + 1, i);
    } else if i < k {
      PowMonotone(i + 1, k);
    }
  }

  /** The named units cover every size below 1024^4 bytes. */
  lemma {:induction false} UnitIndexBelowFour(bytes: nat)
    requires bytes > 0
    ensures UnitIndex(bytes) < 4 <==> bytes < Pow(4)
  {
    var i := UnitIndex(bytes);
    if i >= 4 {
      PowMonotone(4, i);
    } else {
      PowMonotone(i + 1, 4);
    }
  }

  /** The unit names; an index past the last one reads undefined. */
  function Unit(i: nat): (u: Option<string>)
    ensures u.Some? <==> i < 4
  {
    if i == 0 then Some("Bytes")
    else if i == 1 then Some("KB")
    else if i == 2 then Some("MB")
    else if i == 3 then Some("GB")
    else None
  }

  /** A size as shown: an amount and the unit name (None for undefined). */
  datatype SizeText = SizeText(amount: real, unit: Option<string>)

  lemma DivideBounds(b: real, p: real)
    requires p > 0.0 && p <= b < 1024.0 * p
    ensures 1.0 <= b / p < 1024.0
  {
    var q := b / p;
    assert q * p == b;
    CancelFactor(1.0, q, p);
    CancelFactor(q, 1024.0, p);
  }

  lemma CancelFactor(x: real, y: real, p: real)
    requires p > 0.0
    ensures x * p <= y * p ==> x <= y
    ensures x * p < y * p ==> x < y
  {
  }

  /** formatFileSize before the amount is rounded to two decimals. */
  function FormatFileSize(bytes: nat): (t: SizeText)
    ensures bytes == 0 ==> t == SizeText(0.0, Some("Bytes"))
    ensures bytes > 0 ==> 1.0 <= t.amount < Kilo as real
    ensures t.unit.None? <==> bytes >= Pow(4)
    ensures bytes > 0 ==> t.unit == Unit(UnitIndex(bytes)) && t.amount == bytes as real / Pow(UnitIndex(bytes)) as real
  {
    if bytes == 0 then SizeText(0.0, Some("Bytes"))
    else
      var i := UnitIndex(bytes);
      UnitIndexBelowFour(bytes);
      assert Pow(i + 1) == Kilo * Pow(i);
      DivideBounds(bytes as real, Pow(i) as real);
      SizeText(bytes as real / Pow(i) as real, Unit(i))
  }

  /** The size is shown in the unit k whose range 1024^k <= bytes < 1024^(k+1)
      holds it, as the amount bytes / 1024^k. */
  lemma FormatFileSizeUnit(bytes: nat, k: nat)
    requires Pow(k) <= bytes < Pow(k + 1)
    ensures FormatFileSize(bytes).unit == Unit(k)
    ensures FormatFileSize(bytes).amount == bytes as real / Pow(k) as real
  {
    UnitIndexUnique(bytes, k);
  }
}
