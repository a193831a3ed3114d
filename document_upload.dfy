/**
 * The document upload dialog: a file is picked (by the file chooser or by
 * dropping it), refused when it is larger than 5 MB, and on "Upload" read
 * as a data URL and handed to the store as a new client document.
 */
module DocumentUpload {
  import opened Types
  import opened Text
  import PhaseProgress
  import ClientContext

  /** 5 MB: the largest file the dialog accepts. */
  const MaxFileSize: nat := 5 * 1024 * 1024

  /** What the dialog needs of a browser `File`: its name, MIME type (possibly empty) and size in bytes. */
  datatype File = File(name: string, mimeType: string, size: nat)

  /** The result of reading the file as a data URL. */
  datatype ReadOutcome = ReadDone(data: string) | ReadFailed

  // ---------------------------------------------------------------------
  // File sizes as shown to the user
  // ---------------------------------------------------------------------

  /**
   * `(num / den).toFixed(1)` in tenths: the integer `n` such that `n / 10`
   * is nearest to `num / den`, the larger one on a tie. Dividing a byte
   * count by 1024 or 1048576 is exact in binary floating point, so this is
   * the value `toFixed` rounds.
   */
  function RoundedTenths(num: nat, den: nat): (n: nat)
    requires den > 0
    ensures 2 * den * n <= 20 * num + den < 2 * den * (n + 1)
  {
    var a, b := 20 * num + den, 2 * den;
    PhaseProgress.DivAtLeast(a, b, a / b);
    PhaseProgress.DivAtLeast(a, b, a / b + 1);
    a / b
  }

  /** A count of tenths written with one decimal, as "12.5". */
  function OneDecimal(n: nat): (r: string)
    ensures |r| >= 3 && r[|r| - 2] == '.' && AllDigits(r[..|r| - 2]) && IsDigit(r[|r| - 1])
  {
    NatToString(n / 10) + "." + [DigitChar(n % 10)]
  }

  /** The rendering reads back as the same number of tenths. */
  lemma OneDecimalValue(n: nat)
    ensures var r := OneDecimal(n);
      DigitsValue(r[..|r| - 2]) * 10 + DigitValue(r[|r| - 1]) == n
  {
    var r := OneDecimal(n);
    assert r[..|r| - 2] == NatToString(n / 10);
    NatToStringValue(n / 10);
  }

  const KiB: nat := 1024
  const MiB: nat := 1024 * 1024

  /** Bytes below 1 KB, kilobytes with one decimal below 1 MB, megabytes with one decimal from there. */
  function FormatFileSize(bytes: nat): string
  {
    if bytes < KiB then NatToString(bytes) + " B"
    else if bytes < MiB then OneDecimal(RoundedTenths(bytes, KiB)) + " KB"
    else OneDecimal(RoundedTenths(bytes, MiB)) + " MB"
  }

  predicate EndsWith(s: string, suffix: string)
  {
    |suffix| <= |s| && s[|s| - |suffix|..] == suffix
  }

  /** The unit is chosen by the two thresholds, each unit for exactly its range. */
  lemma FormatFileSizeUnit(bytes: nat)
    ensures EndsWith(FormatFileSize(bytes), " B") <==> bytes < 1024
    ensures EndsWith(FormatFileSize(bytes), " KB") <==> 1024 <= bytes < 1048576
    ensures EndsWith(FormatFileSize(bytes), " MB") <==> bytes >= 1048576
  {
    var r := FormatFileSize(bytes);
    if bytes < KiB {
      var d := NatToString(bytes);
      assert r[|r| - 2..] == " B";
      assert r[|r| - 3] == d[|d| - 1];
    } else if bytes < MiB {
      assert r[|r| - 3..] == " KB";
      assert r[|r| - 2..] == "KB";
    } else {
      assert r[|r| - 3..] == " MB";
      assert r[|r| - 2..] == "MB";
    }
  }

  /** The number shown is the size in the chosen unit, rounded to the nearest tenth. */
  lemma FormatFileSizeRounding(bytes: nat)
    ensures 1024 <= bytes < 1048576 ==>
      FormatFileSize(bytes) == OneDecimal(RoundedTenths(bytes, 1024)) + " KB"
      && 10 <= RoundedTenths(bytes, 1024) <= 10240
    ensures bytes >= 1048576 ==>
      FormatFileSize(bytes) == OneDecimal(RoundedTenths(bytes, 1048576)) + " MB"
      && RoundedTenths(bytes, 1048576) >= 10
  {
    if 1024 <= bytes < 1048576 {
      PhaseProgress.DivAtLeast(20 * bytes + 1024, 2048, 10);
      PhaseProgress.DivAtLeast(20 * bytes + 1024, 2048, 10241);
    } else if bytes >= 1048576 {
      PhaseProgress.DivAtLeast(20 * bytes + 1048576, 2097152, 10);
    }
  }

  /** The message shown for a file over the limit. */
  function TooLargeMessage(size: nat): string
  {
    "File too large (" + FormatFileSize(size) + "). Maximum size is 5 MB."
  }

  const ReadFailedMessage: string := "Failed to read the file. Please try again."

  // ---------------------------------------------------------------------
  // The uploaded record
  // ---------------------------------------------------------------------

  /** `file.type || 'application/octet-stream'`. */
  function MimeTypeOrDefault(mimeType: string): (r: string)
    ensures r != []
    ensures mimeType != [] ==> r == mimeType
  {
    if mimeType == [] then "application/octet-stream" else mimeType
  }

  /** `doc-<clock>-<random suffix>`. */
  function DocumentId(now: nat, randomSuffix: string): string
  {
    "doc-" + NatToString(now) + "-" + randomSuffix
  }

  /** The record built for a file that was read: the dialog's client and category, the file's name, type and size. */
  function NewDocument(clientId: string, f: File, category: DocumentCategory, data: string, id: string, uploadedAt: string): (d: ClientDocument)
    ensures d.clientId == clientId && d.category == category
    ensures d.name == f.name && d.size == f.size && d.data == data
    ensures d.mimeType != [] && (f.mimeType != [] ==> d.mimeType == f.mimeType)
  {
    ClientDocument(id, clientId, f.name, MimeTypeOrDefault(f.mimeType), f.size, data, uploadedAt, category)
  }

  // ---------------------------------------------------------------------
  // The dialog's state
  // ---------------------------------------------------------------------

  class UploadModal {
    const clientId: string
    var file: Option<File>
    var category: DocumentCategory
    var dragOver: bool
    var error: Option<string>
    var uploading: bool

    /** Only a file within the limit is ever selected. */
    predicate Valid()
      reads this
    {
      file.Some? ==> file.value.size <= MaxFileSize
    }

    /** The state `reset` restores. */
    predicate IsReset()
      reads this
    {
      file == None && category == Reference && !dragOver && error == None && !uploading
    }

    constructor (clientId: string)
      ensures this.clientId == clientId
      ensures IsReset() && Valid()
    {
      this.clientId := clientId;
      file := None;
      category := Reference;
      dragOver := false;
      error := None;
      uploading := false;
    }

    method Reset()
      modifies this
      ensures IsReset() && Valid()
    {
      file := None;
      category := Reference;
      dragOver := false;
      error := None;
      uploading := false;
    }

    /** Accepts a file within the limit and clears the error; refuses a larger one with a message. */
    method ValidateFile(f: File) returns (ok: bool)
      modifies this
      ensures ok <==> f.size <= MaxFileSize
      ensures error == (if ok then None else Some(TooLargeMessage(f.size)))
      ensures file == old(file) && category == old(category) && dragOver == old(dragOver) && uploading == old(uploading)
    {
      if f.size > MaxFileSize {
        error := Some(TooLargeMessage(f.size));
        return false;
      }
      error := None;
      return true;
    }

    /** A refused file leaves the selection as it was; an accepted one replaces it. */
    method HandleFileSelect(f: File)
      requires Valid()
      modifies this
      ensures Valid()
      ensures f.size <= MaxFileSize ==> file == Some(f) && error == None
      ensures f.size > MaxFileSize ==> file == old(file) && error == Some(TooLargeMessage(f.size))
      ensures category == old(category) && dragOver == old(dragOver) && uploading == old(uploading)
    {
      var ok := ValidateFile(f);
      if ok {
        file := Some(f);
      }
    }

    /** A drop ends the drag highlight and offers the first dropped file, if any. */
    method HandleDrop(files: seq<File>)
      requires Valid()
      modifies this
      ensures Valid() && !dragOver
      ensures files == [] ==> file == old(file) && error == old(error)
      ensures files != [] && files[0].size <= MaxFileSize ==> file == Some(files[0]) && error == None
      ensures files != [] && files[0].size > MaxFileSize ==> file == old(file) && error == Some(TooLargeMessage(files[0].size))
      ensures category == old(category) && uploading == old(uploading)
    {
      dragOver := false;
      if files != [] {
        HandleFileSelect(files[0]);
      }
    }

    /** A file dragged over the drop zone turns the highlight on. */
    method HandleDragOver()
      modifies this
      ensures dragOver
      ensures file == old(file) && category == old(category) && error == old(error) && uploading == old(uploading)
    {
      dragOver := true;
    }

    /** Leaving the drop zone turns the highlight off. */
    method HandleDragLeave()
      modifies this
      ensures !dragOver
      ensures file == old(file) && category == old(category) && error == old(error) && uploading == old(uploading)
    {
      dragOver := false;
    }

    method SetCategory(c: DocumentCategory)
      modifies this
      ensures category == c
      ensures file == old(file) && dragOver == old(dragOver) && error == old(error) && uploading == old(uploading)
    {
      category := c;
    }

    /**
     * Without a selected file nothing happens. Otherwise the file is read:
     * on failure the dialog shows an error and is ready to try again; on
     * success the new document is handed out once and the dialog is reset.
     */
    method HandleUpload(read: ReadOutcome, now: nat, randomSuffix: string, uploadedAt: string) returns (uploaded: Option<ClientDocument>)
      requires Valid()
      modifies this
      ensures Valid()
      ensures old(file) == None ==>
        (uploaded == None && file == old(file) && error == old(error)
         && category == old(category) && dragOver == old(dragOver) && uploading == old(uploading))
      ensures old(file) != None && read.ReadFailed? ==>
        (uploaded == None && error == Some(ReadFailedMessage) && !uploading
         && file == old(file) && category == old(category) && dragOver == old(dragOver))
      ensures old(file) != None && read.ReadDone? ==>
        (uploaded == Some(NewDocument(clientId, old(file).value, old(category), read.data, DocumentId(now, randomSuffix), uploadedAt))
         && IsReset())
      ensures uploaded.Some? ==> uploaded.value.size <= MaxFileSize && uploaded.value.clientId == clientId
    {
      if file == None {
        return None;
      }
      uploading := true;
      match read
      case ReadFailed =>
        error := Some(ReadFailedMessage);
        uploading := false;
        uploaded := None;
      case ReadDone(data) =>
        var doc := NewDocument(clientId, file.value, category, data, DocumentId(now, randomSuffix), uploadedAt);
        uploaded := Some(doc);
        Reset();
    }
  }

  /**
   * The clients page's upload handler: the dialog's upload followed by
   * `addDocument` for the document it hands out, so a successful upload
   * adds exactly one document, newest first, and a failed one adds none.
   */
  method UploadToStore(modal: UploadModal, store: ClientContext.ClientStore, read: ReadOutcome, now: nat, randomSuffix: string, uploadedAt: string)
    returns (uploaded: Option<ClientDocument>)
    requires modal.Valid() && store.Valid()
    modifies modal, store
    ensures modal.Valid() && store.Valid()
    ensures uploaded.Some? ==> store.clientDocuments == [uploaded.value] + old(store.clientDocuments)
    ensures uploaded.None? ==> store.clientDocuments == old(store.clientDocuments)
    ensures uploaded.Some? <==> old(modal.file) != None && read.ReadDone?
    ensures store.allClients == old(store.allClients) && store.allPhases == old(store.allPhases)
  {
    uploaded := modal.HandleUpload(read, now, randomSuffix, uploadedAt);
    if uploaded.Some? {
      store.AddDocument(uploaded.value);
    }
  }
}
