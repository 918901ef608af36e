/** The photo picker of `components/image-upload/image-upload.ts`: drag state,
    validation of the chosen file, the size label, the preview, and handing
    the preview URL on. Reading the file is split into the request
    (`HandleFile` marks the upload as running) and its two outcomes
    (`OnPreviewLoaded`, `OnPreviewFailed`). */
module ImageUploadView {
  import opened Basics

  /** A browser `File`: its name, size in bytes and MIME type. */
  datatype File = File(name: string, size: nat, mimeType: string)

  const MaxFileSize: nat := 10 * 1024 * 1024
  const AllowedTypes: seq<string> := ["image/jpeg", "image/png", "image/webp"]

  const TypeError := "Định dạng file không được hỗ trợ. Vui lòng chọn file JPG, PNG hoặc WebP."
  const SizeError := "File quá lớn. Vui lòng chọn file nhỏ hơn 10MB."
  const ReadError := "Không thể đọc file. Vui lòng thử lại."

  /** The validation of `handleFile`: the type is checked first, then the
      size; `None` accepts the file. */
  function Rejection(file: File): (r: Option<string>)
    ensures r.None? <==> file.mimeType in AllowedTypes && file.size <= MaxFileSize
    ensures r.Some? ==> r.value == TypeError || r.value == SizeError
    ensures file.mimeType !in AllowedTypes ==> r == Some(TypeError)
    ensures file.mimeType in AllowedTypes && file.size > MaxFileSize ==> r == Some(SizeError)
  {
    if file.mimeType !in AllowedTypes then Some(TypeError)
    else if file.size > MaxFileSize then Some(SizeError)
    else None
  }

  /** A wrong type is reported as such whatever the size; a file of exactly
      10 MiB of an allowed type passes and one byte more does not. */
  lemma RejectionBoundaries(name: string, mimeType: string, size: nat)
    ensures mimeType !in AllowedTypes ==> Rejection(File(name, size, mimeType)) == Some(TypeError)
    ensures mimeType in AllowedTypes ==>
              && Rejection(File(name, MaxFileSize, mimeType)).None?
              && Rejection(File(name, MaxFileSize + 1, mimeType)) == Some(SizeError)
  {
  }

  function Pow(b: nat, e: nat): (r: nat)
    ensures b > 0 ==> r > 0
  {
    if e == 0 then 1 else b * Pow(b, e - 1)
  }

  lemma {:induction false} PowMonotone(b: nat, e1: nat, e2: nat)
    requires b > 0 && e1 <= e2
    decreases e2
    ensures Pow(b, e1) <= Pow(b, e2)
  {
    if e1 < e2 {
      PowMonotone(b, e1, e2 - 1);
      assert Pow(b, e2) == b * Pow(b, e2 - 1);
    }
  }

  /** `Math.floor(Math.log(bytes) / Math.log(1024))` for a positive size: the
      power of 1024 that the size lies in. */
  function UnitIndex(bytes: nat): (i: nat)
    requires bytes > 0
    ensures Pow(1024, i) <= bytes < Pow(1024, i + 1)
  {
    if bytes < 1024 then 0
    else
      var j := UnitIndex(bytes / 1024);
      var q := bytes / 1024;
      assert Pow(1024, j + 1) == 1024 * Pow(1024, j) <= 1024 * q <= bytes;
      assert bytes < 1024 * (q + 1) <= 1024 * Pow(1024, j + 1) == Pow(1024, j + 2);
      j + 1
  }

  const Units: seq<string> := ["Bytes", "KB", "MB", "GB"]

  /** The size label: the amount in the chosen unit and the unit's name. */
  datatype FileSizeLabel = FileSizeLabel(amount: real, unit: string)

  /** `formatFileSize`, before rounding the amount to two decimals: zero is
      "0 Bytes"; otherwise the size divided by the power of 1024 it lies in,
      with that power's unit. Past the fourth unit the unit lookup yields
      "undefined". */
  function FormatFileSize(bytes: nat): (r: FileSizeLabel)
    ensures bytes == 0 ==> r == FileSizeLabel(0.0, "Bytes")
    ensures bytes > 0 ==> r.amount * Pow(1024, UnitIndex(bytes)) as real == bytes as real
    ensures bytes > 0 ==> r.unit == if UnitIndex(bytes) < |Units| then Units[UnitIndex(bytes)] else "undefined"
  {
    if bytes == 0 then FileSizeLabel(0.0, "Bytes")
    else LabelInUnit(bytes, UnitIndex(bytes), Pow(1024, UnitIndex(bytes)))
  }

  /** The label of a size in unit `i`, whose size in bytes is `unitSize`. */
  function LabelInUnit(bytes: nat, i: nat, unitSize: nat): (r: FileSizeLabel)
    requires unitSize > 0
    ensures r.amount * unitSize as real == bytes as real
    ensures r.unit == if i < |Units| then Units[i] else "undefined"
  {
    FileSizeLabel(bytes as real / unitSize as real, if i < |Units| then Units[i] else "undefined")
  }

  lemma QuotientBounds(x: real, p: real)
    requires p > 0.0 && p <= x < 1024.0 * p
    ensures 1.0 <= x / p < 1024.0
  {
    var a := x / p;
    assert a * p == x;
    if a < 1.0 {
      assert false;
    }
    if a >= 1024.0 {
      assert false;
    }
  }

  /** A non-zero size is shown as an amount from 1 up to, but not including,
      1024 of its unit. */
  lemma FileSizeAmountInRange(bytes: nat)
    requires bytes > 0
    ensures 1.0 <= FormatFileSize(bytes).amount < 1024.0
  {
    var i := UnitIndex(bytes);
    assert Pow(1024, i + 1) == 1024 * Pow(1024, i);
    QuotientBounds(bytes as real, Pow(1024, i) as real);
  }

  /** Every file the size check lets through is labelled in bytes, KB or MB. */
  lemma AcceptedSizeUnit(bytes: nat)
    requires 0 < bytes <= MaxFileSize
    ensures UnitIndex(bytes) <= 2
    ensures FormatFileSize(bytes).unit in ["Bytes", "KB", "MB"]
  {
    var i := UnitIndex(bytes);
    if i >= 3 {
      PowMonotone(1024, 3, i);
    }
  }

  /** What `useImage` emits: the preview URL when it is set and not empty. */
  function Emitted(previewUrl: Option<string>): (r: Option<string>)
    ensures r.Some? <==> previewUrl.Some? && previewUrl.value != ""
    ensures r.Some? ==> r == previewUrl
  {
    if previewUrl.Some? && previewUrl.value != "" then previewUrl else None
  }

  class ImageUpload {
    var isDragOver: bool
    var isUploading: bool
    var previewUrl: Option<string>
    var fileName: string
    var fileSize: Option<FileSizeLabel>
    var errorMessage: string
    var selectedFile: Option<File>

    constructor ()
      ensures !isDragOver && !isUploading && previewUrl.None? && fileName == ""
      ensures fileSize.None? && errorMessage == "" && selectedFile.None?
    {
      isDragOver, isUploading := false, false;
      previewUrl, fileName, fileSize := None, "", None;
      errorMessage, selectedFile := "", None;
    }

    method OnDragOver()
      modifies this`isDragOver
      ensures isDragOver
    {
      isDragOver := true;
    }

    method OnDragLeave()
      modifies this`isDragOver
      ensures !isDragOver
    {
      isDragOver := false;
    }

    /** `handleFile`: clear the message, then reject with the message of
        `Rejection` or take the file and start reading it. A rejected file
        leaves the previous selection and preview in place; an accepted one
        replaces the selection while the old preview stays until the new one
        is read. */
    method HandleFile(file: File)
      modifies this`errorMessage, this`selectedFile, this`fileName, this`fileSize, this`isUploading
      ensures Rejection(file).Some? ==>
                && errorMessage == Rejection(file).value
                && selectedFile == old(selectedFile) && fileName == old(fileName)
                && fileSize == old(fileSize) && isUploading == old(isUploading)
      ensures Rejection(file).None? ==>
                && errorMessage == ""
                && selectedFile == Some(file) && fileName == file.name
                && fileSize == Some(FormatFileSize(file.size)) && isUploading
    {
      errorMessage := "";
      if file.mimeType !in AllowedTypes {
        errorMessage := TypeError;
        return;
      }
      if file.size > MaxFileSize {
        errorMessage := SizeError;
        return;
      }
      selectedFile := Some(file);
      fileName := file.name;
      fileSize := Some(FormatFileSize(file.size));
      isUploading := true;
    }

    /** `onDrop`: end the drag and handle the first dropped file, if any. */
    method OnDrop(files: seq<File>)
      modifies this`isDragOver, this`errorMessage, this`selectedFile, this`fileName, this`fileSize, this`isUploading
      ensures !isDragOver
      ensures files == [] ==>
                && errorMessage == old(errorMessage) && selectedFile == old(selectedFile)
                && fileName == old(fileName) && fileSize == old(fileSize)
                && isUploading == old(isUploading)
      ensures files != [] && Rejection(files[0]).Some? ==>
                && errorMessage == Rejection(files[0]).value
                && selectedFile == old(selectedFile) && fileName == old(fileName)
                && fileSize == old(fileSize) && isUploading == old(isUploading)
      ensures files != [] && Rejection(files[0]).None? ==>
                && errorMessage == ""
                && selectedFile == Some(files[0]) && fileName == files[0].name
                && fileSize == Some(FormatFileSize(files[0].size)) && isUploading
    {
      isDragOver := false;
      if |files| > 0 {
        HandleFile(files[0]);
      }
    }

    /** `onFileSelected`: handle the first chosen file, if any. */
    method OnFileSelected(files: seq<File>)
      modifies this`errorMessage, this`selectedFile, this`fileName, this`fileSize, this`isUploading
      ensures files == [] ==>
                && errorMessage == old(errorMessage) && selectedFile == old(selectedFile)
                && fileName == old(fileName) && fileSize == old(fileSize)
                && isUploading == old(isUploading)
      ensures files != [] && Rejection(files[0]).Some? ==>
                && errorMessage == Rejection(files[0]).value
                && selectedFile == old(selectedFile) && fileName == old(fileName)
                && fileSize == old(fileSize) && isUploading == old(isUploading)
      ensures files != [] && Rejection(files[0]).None? ==>
                && errorMessage == ""
                && selectedFile == Some(files[0]) && fileName == files[0].name
                && fileSize == Some(FormatFileSize(files[0].size)) && isUploading
    {
      if |files| > 0 {
        HandleFile(files[0]);
      }
    }

    /** The reader's `onload`: the data URL becomes the preview. */
    method OnPreviewLoaded(dataUrl: string)
      modifies this`previewUrl, this`isUploading
      ensures previewUrl == Some(dataUrl) && !isUploading
    {
      previewUrl := Some(dataUrl);
      isUploading := false;
    }

    /** The reader's `onerror`: report it; the preview is left as it was. */
    method OnPreviewFailed()
      modifies this`errorMessage, this`isUploading
      ensures errorMessage == ReadError && !isUploading
    {
      errorMessage := ReadError;
      isUploading := false;
    }

    /** `useImage`: the URL handed to the parent, if any. */
    method UseImage() returns (emitted: Option<string>)
      ensures emitted == Emitted(previewUrl)
      ensures emitted.Some? ==> emitted.value != ""
    {
      if previewUrl.Some? && previewUrl.value != "" {
        emitted := previewUrl;
      } else {
        emitted := None;
      }
    }

    /** `clearPreview`: forget the file, its label, the preview and the
        message, so that nothing can be handed on; a read still running keeps
        its flag. */
    method ClearPreview()
      modifies this`previewUrl, this`selectedFile, this`fileName, this`fileSize, this`errorMessage
      ensures previewUrl.None? && selectedFile.None? && fileName == "" && fileSize.None? && errorMessage == ""
      ensures Emitted(previewUrl).None?
    {
      previewUrl := None;
      selectedFile := None;
      fileName := "";
      fileSize := None;
      errorMessage := "";
    }
  }
}
