/** The attached-file list of the chat page (`fileupload/fileupload.js`):
    the five-file cap, the per-file status transitions, PDF text cleaning,
    removal, attaching to the chat and the saved snapshot.

    The extractors (OCR, `FileReader`) are oracles: `ProcessFile` receives
    what the reader produced for the file.  `Date.now()`/`Math.random()`
    ids are a parameter, and `localStorage` is the `stored` field. */
module FileUpload {
  import opened Wrappers
  import opened JsString

  const MaxFiles: nat := 5
  const MaxFileSize: int := 10 * 1024 * 1024
  const PdfMaxChars: nat := 10000

  /** Identity of the browser `File` object an entry keeps. */
  datatype FileHandle = FileHandle(ref: nat)

  /** A file as the picker or the camera hands it over. */
  datatype PickedFile = PickedFile(name: string, mime: string, size: int, handle: FileHandle)

  datatype FileStatus = Processing | Succeeded | Failed

  datatype FileEntry = FileEntry(id: string, name: string, mime: string, size: int,
                                 status: FileStatus, error: Option<string>, text: string,
                                 handle: FileHandle, isCameraImage: bool)

  /** An entry as saved: every field but the `File` object. */
  datatype SavedEntry = SavedEntry(id: string, name: string, mime: string, size: int,
                                   status: FileStatus, error: Option<string>, text: string,
                                   isCameraImage: bool)

  datatype SavedContext = SavedContext(files: seq<SavedEntry>, text: string, name: string)

  /** The entry `addFileToContext` creates. */
  function NewEntry(file: PickedFile, id: string): FileEntry {
    FileEntry(id, file.name, file.mime, file.size, Processing, None, "", file.handle,
              Includes(file.name, "medicine_photo_"))
  }

  /** A fresh entry is still processing, has no error and no text, and is a
      camera image exactly when its name carries the camera prefix. */
  lemma NewEntryIsProcessing(file: PickedFile, id: string)
    ensures var e := NewEntry(file, id);
      && e.status == Processing && e.error == None && e.text == ""
      && e.id == id && e.name == file.name && e.mime == file.mime && e.size == file.size
      && (e.isCameraImage <==> exists k: nat :: OccursAt(file.name, "medicine_photo_", k))
  {
    IncludesIff(file.name, "medicine_photo_");
  }

  // ---------------------------------------------------------------------
  // Saving

  function Saved(e: FileEntry): SavedEntry {
    SavedEntry(e.id, e.name, e.mime, e.size, e.status, e.error, e.text, e.isCameraImage)
  }

  function Snapshot(files: seq<FileEntry>, text: string, name: string): (c: SavedContext)
    ensures |c.files| == |files| && c.text == text && c.name == name
    ensures forall k :: 0 <= k < |files| ==> c.files[k] == Saved(files[k])
  {
    SavedContext(seq(|files|, k requires 0 <= k < |files| => Saved(files[k])), text, name)
  }

  /** Rebuilds an entry from its saved form and a `File` object. */
  function Rehydrate(s: SavedEntry, handle: FileHandle): FileEntry {
    FileEntry(s.id, s.name, s.mime, s.size, s.status, s.error, s.text, handle, s.isCameraImage)
  }

  /** The snapshot loses only the `File` objects: given them back, every
      entry is recovered exactly, in order. */
  lemma SnapshotLosesOnlyHandles(files: seq<FileEntry>, text: string, name: string)
    ensures var c := Snapshot(files, text, name);
      forall k :: 0 <= k < |files| ==> Rehydrate(c.files[k], files[k].handle) == files[k]
  {
  }

  // ---------------------------------------------------------------------
  // PDF text cleaning

  predicate IsPrintableAscii(c: char) {
    0x20 <= c as int <= 0x7E
  }

  /** `/[^\x20-\x7E\n\r]/g` replaced by a space. */
  function MaskUnprintable(s: string): (r: string)
    ensures |r| == |s|
    ensures forall k :: 0 <= k < |s| ==>
      r[k] == (if IsPrintableAscii(s[k]) || s[k] == '\n' || s[k] == '\r' then s[k] else ' ')
  {
    seq(|s|, k requires 0 <= k < |s| =>
      if IsPrintableAscii(s[k]) || s[k] == '\n' || s[k] == '\r' then s[k] else ' ')
  }

  /** The cleaning chain of the PDF reader: mask, collapse, trim. */
  function CleanPdfText(raw: string): string {
    Trim(CollapseSpace(MaskUnprintable(raw)))
  }

  predicate PrintableOnly(s: string) {
    forall k :: 0 <= k < |s| ==> IsPrintableAscii(s[k])
  }

  /** Masking leaves only printable characters and line breaks, and the
      collapse turns the line breaks into spaces. */
  lemma CollapsedMaskIsPrintable(raw: string)
    ensures PrintableOnly(CollapseSpace(MaskUnprintable(raw)))
  {
    var m := MaskUnprintable(raw);
    var c := CollapseSpace(m);
    forall k | 0 <= k < |c| ensures IsPrintableAscii(c[k]) {
      if c[k] != ' ' {
        var n :| 0 <= n < |m| && m[n] == c[k];
      }
    }
  }

  lemma SliceKeepsShape(c: string, i: nat, j: nat)
    requires i <= j <= |c|
    requires PrintableOnly(c) && NoDoubleSpace(c)
    ensures PrintableOnly(c[i..j]) && NoDoubleSpace(c[i..j])
  {
    var t := c[i..j];
    forall k | 0 <= k < |t| - 1 ensures !(IsSpace(t[k]) && IsSpace(t[k + 1])) {
      assert t[k] == c[i + k] && t[k + 1] == c[i + k + 1];
    }
  }

  /** Cleaned PDF text is printable ASCII only, with no run of two spaces
      and no space at either end. */
  lemma CleanPdfTextShape(raw: string)
    ensures var t := CleanPdfText(raw);
      && PrintableOnly(t) && NoDoubleSpace(t)
      && (t == [] || (!IsSpace(t[0]) && !IsSpace(t[|t| - 1])))
  {
    var c := CollapseSpace(MaskUnprintable(raw));
    CollapsedMaskIsPrintable(raw);
    TrimKeepsShape(c);
  }

  /** Trimming keeps text printable and free of double spaces. */
  lemma TrimKeepsShape(c: string)
    requires PrintableOnly(c) && NoDoubleSpace(c)
    ensures PrintableOnly(Trim(c)) && NoDoubleSpace(Trim(c))
  {
    var s := TrimStart(c);
    SliceKeepsShape(c, |c| - |s|, |c|);
    assert s == c[|c| - |s|..|c|];
    var r := TrimEnd(s);
    SliceKeepsShape(s, 0, |r|);
    assert r == s[0..|r|];
  }

  /** What the PDF reader resolves or rejects with: more than ten cleaned
      characters, cut to the first 10000. */
  function PdfExtract(read: ReadResult): Result<string> {
    match read
    case ReadError(_) => Failure("Failed to read PDF file")
    case Read(raw) =>
      var t := CleanPdfText(raw);
      if |t| > 10 then Success(if |t| <= PdfMaxChars then t else t[..PdfMaxChars])
      else Failure("PDF appears to be empty or scanned")
  }

  /** The reader's result is a printable prefix of the cleaned text between
      11 and 10000 characters long, all of it when it fits; a read error or
      ten cleaned characters or fewer reject. */
  lemma PdfExtractBounds(read: ReadResult)
    ensures var r := PdfExtract(read);
      && (read.ReadError? ==> r == Failure("Failed to read PDF file"))
      && (read.Read? && |CleanPdfText(read.content)| <= 10 ==> r == Failure("PDF appears to be empty or scanned"))
      && (r.Success? ==>
            && 10 < |r.value| <= PdfMaxChars
            && r.value == CleanPdfText(read.content)[..|r.value|]
            && PrintableOnly(r.value)
            && (|CleanPdfText(read.content)| <= PdfMaxChars ==> r.value == CleanPdfText(read.content)))
  {
    if read.Read? {
      var t := CleanPdfText(read.content);
      CleanPdfTextShape(read.content);
      if |t| > PdfMaxChars {
        SliceKeepsShape(t, 0, PdfMaxChars);
        assert t[..PdfMaxChars] == t[0..PdfMaxChars];
      }
    }
  }

  /** Trimming a string that starts with a non-space and has no two spaces
      in a row removes at most its one trailing space. */
  lemma TrimDropsAtMostOne(v: string)
    requires v != [] && !IsSpace(v[0]) && NoDoubleSpace(v)
    ensures |Trim(v)| >= |v| - 1
  {
    assert TrimStart(v) == v;
    if IsSpace(v[|v| - 1]) {
      var u := v[..|v| - 1];
      assert TrimEnd(v) == TrimEnd(u);
      if |v| > 1 {
        assert v[|v| - 2] == u[|u| - 1];
        assert TrimEnd(u) == u;
      }
    }
  }

  /** The `trim().length < 10` check after a successful PDF read can never
      fire: cleaned text longer than ten characters stays at least ten long
      after cutting and trimming. */
  lemma PdfLengthCheckUnreachable(read: ReadResult)
    requires PdfExtract(read).Success?
    ensures |Trim(PdfExtract(read).value)| >= 10
  {
    var v := PdfExtract(read).value;
    PdfExtractBounds(read);
    var t := CleanPdfText(read.content);
    CleanPdfTextShape(read.content);
    SliceKeepsShape(t, 0, |v|);
    assert v == t[0..|v|];
    assert v[0] == t[0];
    TrimDropsAtMostOne(v);
  }

  // ---------------------------------------------------------------------
  // Processing one file

  /** What the reader produced: the text (OCR result, binary string or
      file text), or the error it failed with. */
  datatype ReadResult = Read(content: string) | ReadError(message: string)

  /** `/\.(txt|md|html|rtf|csv)$/i`. */
  predicate HasTextExtension(name: string) {
    var l := ToLower(name);
    EndsWith(l, ".txt") || EndsWith(l, ".md") || EndsWith(l, ".html")
      || EndsWith(l, ".rtf") || EndsWith(l, ".csv")
  }

  predicate IsTextLike(e: FileEntry) {
    Includes(e.mime, "text") || Includes(e.mime, "document") || HasTextExtension(e.name)
  }

  /** The `try` block of `processFile`: the size check, then dispatch on
      the MIME type, each branch with its own emptiness check. */
  function Extract(e: FileEntry, read: ReadResult): Result<string>
  {
    if e.size > MaxFileSize then Failure("File too large (max 10MB)")
    else if StartsWith(e.mime, "image/") then
      match read
      case ReadError(m) => Failure("OCR processing failed: " + m)
      case Read(t) => if Trim(t) == [] then Failure("No text found in image") else Success(t)
    else if e.mime == "application/pdf" then
      match PdfExtract(read)
      case Failure(m) => Failure(m)
      case Success(t) => if |Trim(t)| < 10 then Failure("PDF appears to be empty or unreadable") else Success(t)
    else if IsTextLike(e) then
      match read
      case ReadError(_) => Failure("Failed to read file")
      case Read(t) => Success(t)
    else Failure("File type not supported for text extraction")
  }

  /** The size limit wins over everything, an unknown type fails whatever
      was read, an image succeeds only with non-blank text and a PDF only
      with at most 10000 characters. */
  lemma ExtractOutcomes(e: FileEntry, read: ReadResult)
    ensures var r := Extract(e, read);
      && (e.size > MaxFileSize ==> r == Failure("File too large (max 10MB)"))
      && ((e.size <= MaxFileSize && !StartsWith(e.mime, "image/") && e.mime != "application/pdf" && !IsTextLike(e))
            ==> r == Failure("File type not supported for text extraction"))
      && (r.Success? && StartsWith(e.mime, "image/") ==> Trim(r.value) != [])
      && ((r.Success? && !StartsWith(e.mime, "image/") && e.mime == "application/pdf")
            ==> 10 < |r.value| <= PdfMaxChars && PrintableOnly(r.value))
  {
    if e.size <= MaxFileSize && !StartsWith(e.mime, "image/") && e.mime == "application/pdf" {
      var p := PdfExtract(read);
      PdfExtractBounds(read);
      if p.Success? {
        assert 10 < |p.value| <= PdfMaxChars && PrintableOnly(p.value);
        assert Extract(e, read) == if |Trim(p.value)| < 10 then Failure("PDF appears to be empty or unreadable") else p;
      }
    }
  }

  /** The entry after processing: success with the trimmed text and no
      error, or failure with the message and no text. */
  function Settle(e: FileEntry, read: ReadResult): FileEntry {
    match Extract(e, read)
    case Success(t) => e.(status := Succeeded, text := Trim(t), error := None)
    case Failure(m) => e.(status := Failed, error := Some(m), text := "")
  }

  /** Processing ends in exactly one of the two final states and changes
      nothing but status, text and error. */
  lemma SettleIsFinal(e: FileEntry, read: ReadResult)
    ensures var s := Settle(e, read);
      && s.status != Processing
      && (s.status == Succeeded <==> Extract(e, read).Success?)
      && (s.status == Succeeded ==> s.error == None && s.text == Trim(Extract(e, read).value))
      && (s.status == Failed ==> s.text == "" && s.error == Some(Extract(e, read).error))
      && s.id == e.id && s.name == e.name && s.mime == e.mime && s.size == e.size
      && s.handle == e.handle && s.isCameraImage == e.isCameraImage
  {
  }

  /** An image succeeds only with some non-blank text, and a PDF never with
      more than 10000 characters. */
  lemma SettledTextBounds(e: FileEntry, read: ReadResult)
    requires Settle(e, read).status == Succeeded
    ensures StartsWith(e.mime, "image/") ==> Settle(e, read).text != []
    ensures !StartsWith(e.mime, "image/") && e.mime == "application/pdf" ==> |Settle(e, read).text| <= PdfMaxChars
  {
    ExtractOutcomes(e, read);
  }

  /** `findIndex` by id. */
  function IndexOfId(files: seq<FileEntry>, id: string): (r: int)
    ensures -1 <= r < |files|
    ensures r >= 0 ==> files[r].id == id
    ensures forall k :: 0 <= k < |files| && (r < 0 || k < r) ==> files[k].id != id
  {
    if files == [] then -1
    else if files[0].id == id then 0
    else var i := IndexOfId(files[1..], id); if i < 0 then -1 else i + 1
  }

  /** The list after processing the entry with `id`; unchanged without one. */
  function Processed(files: seq<FileEntry>, id: string, read: ReadResult): seq<FileEntry> {
    var i := IndexOfId(files, id);
    if i < 0 then files else files[i := Settle(files[i], read)]
  }

  // ---------------------------------------------------------------------
  // Adding files

  /** The error `processFile` throws before its first `await`: the size
      limit, or a type no extractor handles. `None` when the file has to be
      read first. */
  function EarlyFailure(e: FileEntry): Option<string> {
    if e.size > MaxFileSize then Some("File too large (max 10MB)")
    else if !StartsWith(e.mime, "image/") && e.mime != "application/pdf" && !IsTextLike(e)
    then Some("File type not supported for text extraction")
    else None
  }

  /** The `catch` block of `processFile`. */
  function Fail(e: FileEntry, message: string): FileEntry {
    e.(status := Failed, error := Some(message), text := "")
  }

  /** A new entry as `addFileToContext` leaves it: rejected at once, or
      still processing. */
  function AddedEntry(file: PickedFile, id: string): FileEntry {
    var e := NewEntry(file, id);
    match EarlyFailure(e)
    case Some(m) => Fail(e, m)
    case None => e
  }

  /** A file rejected before any read is already in the state processing
      would settle it in, whatever the reader would have produced; any
      other file is still the fresh entry, processing. */
  lemma AddedEntrySettled(file: PickedFile, id: string, read: ReadResult)
    ensures var e := NewEntry(file, id);
      && (EarlyFailure(e).Some? ==> AddedEntry(file, id) == Settle(e, read) && Settle(e, read).status == Failed)
      && (EarlyFailure(e).None? ==> AddedEntry(file, id) == e && e.status == Processing)
      && (EarlyFailure(e).None? <==> e.size <= MaxFileSize && (StartsWith(e.mime, "image/") || e.mime == "application/pdf" || IsTextLike(e)))
  {
  }

  /** The list after `addFileToContext`: the new entry is pushed and, for a
      file rejected before any read, the entry found by the id is settled to
      that error. */
  function Added(files: seq<FileEntry>, file: PickedFile, id: string): (r: seq<FileEntry>)
    ensures |r| == |files| + 1
  {
    var all := files + [NewEntry(file, id)];
    match EarlyFailure(NewEntry(file, id))
    case None => all
    case Some(m) =>
      var i := IndexOfId(all, id);
      assert all[|all| - 1].id == id;
      all[i := Fail(all[i], m)]
  }

  /** With an id no entry has yet, adding appends exactly the added entry. */
  lemma AddedFresh(files: seq<FileEntry>, file: PickedFile, id: string)
    requires id !in Ids(files)
    ensures Added(files, file, id) == files + [AddedEntry(file, id)]
  {
    var e := NewEntry(file, id);
    var all := files + [e];
    var i := IndexOfId(all, id);
    assert all[|files|].id == id;
    forall k | 0 <= k < |files|
      ensures all[k].id != id
    {
      assert all[k] == files[k] && Ids(files)[k] == files[k].id;
    }
    assert i == |files|;
    match EarlyFailure(e)
    case None =>
    case Some(m) =>
      assert all[i := Fail(all[i], m)] == files + [Fail(e, m)];
  }

  /** `handleFiles` once the cap is passed: every file added in batch order. */
  function AddedAll(files: seq<FileEntry>, batch: seq<PickedFile>, ids: nat -> string): (r: seq<FileEntry>)
    ensures |r| == |files| + |batch|
    decreases |batch|
  {
    if batch == [] then files
    else Added(AddedAll(files, batch[..|batch| - 1], ids), batch[|batch| - 1], ids(|batch| - 1))
  }

  function AddedEntries(batch: seq<PickedFile>, ids: nat -> string): (r: seq<FileEntry>)
    ensures |r| == |batch|
    ensures forall k :: 0 <= k < |batch| ==> r[k] == AddedEntry(batch[k], ids(k))
  {
    seq(|batch|, k requires 0 <= k < |batch| => AddedEntry(batch[k], ids(k)))
  }

  lemma AddedEntriesAppend(batch: seq<PickedFile>, ids: nat -> string)
    requires batch != []
    ensures var n := |batch| - 1;
      AddedEntries(batch, ids) == AddedEntries(batch[..n], ids) + [AddedEntry(batch[n], ids(n))]
  {
  }

  /** The last id of a batch is not among the entries before it. */
  lemma FreshAfterBatch(files: seq<FileEntry>, batch: seq<PickedFile>, ids: nat -> string)
    requires batch != []
    requires forall k :: 0 <= k < |batch| ==> ids(k) !in Ids(files)
    requires forall j, k :: 0 <= j < k < |batch| ==> ids(j) != ids(k)
    ensures ids(|batch| - 1) !in Ids(files + AddedEntries(batch[..|batch| - 1], ids))
  {
    var n := |batch| - 1;
    var before := files + AddedEntries(batch[..n], ids);
    forall k | 0 <= k < |before| ensures Ids(before)[k] != ids(n) {
      if k < |files| {
        assert before[k] == files[k] && Ids(files)[k] == files[k].id;
        assert files[k].id in Ids(files);
      } else {
        assert before[k] == AddedEntry(batch[k - |files|], ids(k - |files|));
      }
    }
  }

  /** With ids that are new and pairwise distinct, as the generated ids
      are, a batch appends one added entry per file, in batch order. */
  lemma {:induction false} AddedAllFresh(files: seq<FileEntry>, batch: seq<PickedFile>, ids: nat -> string)
    requires forall k :: 0 <= k < |batch| ==> ids(k) !in Ids(files)
    requires forall j, k :: 0 <= j < k < |batch| ==> ids(j) != ids(k)
    ensures AddedAll(files, batch, ids) == files + AddedEntries(batch, ids)
    decreases |batch|
  {
    if batch != [] {
      var n := |batch| - 1;
      var init := batch[..n];
      AddedAllFresh(files, init, ids);
      var before := files + AddedEntries(init, ids);
      FreshAfterBatch(files, batch, ids);
      AddedFresh(before, batch[n], ids(n));
      assert AddedAll(files, batch, ids) == Added(AddedAll(files, init, ids), batch[n], ids(n));
      AddedEntriesAppend(batch, ids);
    }
  }

  /** Only the first entry with the id is settled; all others, the length
      and the order stay the same. */
  lemma ProcessedChangesOneEntry(files: seq<FileEntry>, id: string, read: ReadResult)
    ensures var r := Processed(files, id, read);
      && |r| == |files|
      && (forall k :: 0 <= k < |files| ==> r[k].id == files[k].id)
      && (forall k :: 0 <= k < |files| && r[k] != files[k] ==>
            files[k].id == id && r[k] == Settle(files[k], read) && (forall j :: 0 <= j < k ==> files[j].id != id))
      && (id !in Ids(files) ==> r == files)
  {
  }

  function Ids(files: seq<FileEntry>): (r: seq<string>)
    ensures |r| == |files| && forall k :: 0 <= k < |files| ==> r[k] == files[k].id
  {
    seq(|files|, k requires 0 <= k < |files| => files[k].id)
  }

  // ---------------------------------------------------------------------
  // Removing and attaching

  /** `files.filter(f => f.id !== id)`. */
  function WithoutId(files: seq<FileEntry>, id: string): (r: seq<FileEntry>)
    ensures |r| <= |files|
    ensures forall k :: 0 <= k < |r| ==> r[k].id != id && r[k] in files
  {
    if files == [] then []
    else (if files[0].id == id then [] else [files[0]]) + WithoutId(files[1..], id)
  }

  /** Number of entries with a given id. */
  function CountId(files: seq<FileEntry>, id: string): nat {
    if files == [] then 0 else (if files[0].id == id then 1 else 0) + CountId(files[1..], id)
  }

  /** Removal keeps every other entry, and drops exactly the entries with
      that id. */
  lemma {:induction false} WithoutIdKeepsOthers(files: seq<FileEntry>, id: string)
    ensures forall e :: e in files && e.id != id ==> e in WithoutId(files, id)
    ensures |WithoutId(files, id)| == |files| - CountId(files, id)
  {
    if files != [] {
      WithoutIdKeepsOthers(files[1..], id);
    }
  }

  /** `files.filter(f => f.status === 'success' && f.text)`. */
  function Attachable(files: seq<FileEntry>): (r: seq<FileEntry>)
    ensures |r| <= |files|
    ensures forall k :: 0 <= k < |r| ==> r[k].status == Succeeded && r[k].text != [] && r[k] in files
  {
    if files == [] then []
    else
      (if files[0].status == Succeeded && files[0].text != [] then [files[0]] else [])
        + Attachable(files[1..])
  }

  /** An entry is attachable exactly when it succeeded with some text. */
  lemma {:induction false} AttachableComplete(files: seq<FileEntry>)
    ensures forall e :: e in files && e.status == Succeeded && e.text != [] ==> e in Attachable(files)
    ensures Attachable(files) == [] <==> forall e :: e in files ==> e.status != Succeeded || e.text == []
  {
    if files != [] {
      AttachableComplete(files[1..]);
    }
  }

  /** One file's part of the chat context. */
  function Block(f: FileEntry): string {
    "[File: " + f.name + "]\n" + f.text + "\n"
  }

  function Blocks(fs: seq<FileEntry>): (r: seq<string>)
    ensures |r| == |fs| && forall k :: 0 <= k < |fs| ==> r[k] == Block(fs[k])
  {
    seq(|fs|, k requires 0 <= k < |fs| => Block(fs[k]))
  }

  function AttachedText(fs: seq<FileEntry>): string {
    Join(Blocks(fs), "\n")
  }

  function AttachedName(count: nat): string {
    NatToString(count) + " file(s) attached"
  }

  /** The attached text holds every file's block, in list order, with a
      blank line between consecutive blocks; the name states the count. */
  lemma AttachedTextHoldsEveryBlock(fs: seq<FileEntry>, k: nat)
    requires k < |fs|
    ensures var o := JoinOffset(Blocks(fs), "\n", k);
      && o + |Block(fs[k])| <= |AttachedText(fs)|
      && AttachedText(fs)[o..o + |Block(fs[k])|] == Block(fs[k])
    ensures var name := AttachedName(|fs|);
      DigitsValue(name[..|NatToString(|fs|)|]) == |fs|
  {
    JoinSlice(Blocks(fs), "\n", k);
    NatToStringValue(|fs|);
    assert AttachedName(|fs|)[..|NatToString(|fs|)|] == NatToString(|fs|);
  }

  // ---------------------------------------------------------------------
  // The context object

  /** `fileContext` and its saved copy under `ventora_file_context`. */
  class FileContext {
    var files: seq<FileEntry>
    var text: string
    var name: string
    var stored: Option<SavedContext>

    constructor ()
      ensures files == [] && text == "" && name == "" && stored == None
    {
      files := [];
      text := "";
      name := "";
      stored := None;
    }

    /** `saveFileContext`. */
    method Save()
      modifies this
      ensures files == old(files) && text == old(text) && name == old(name)
      ensures stored == Some(Snapshot(files, text, name))
    {
      stored := Some(Snapshot(files, text, name));
    }

    /** `clearFileContext`: empty list, text and name; the saved copy is removed. */
    method Clear()
      modifies this
      ensures files == [] && text == "" && name == "" && stored == None
    {
      files := [];
      text := "";
      name := "";
      stored := None;
    }

    /** `addFileToContext`: the entry is pushed and saved, and `processFile`
        starts; up to its first `await` it can only reject the file for its
        size or type, which settles the entry found by the id and saves. */
    method AddFile(file: PickedFile, id: string)
      modifies this
      ensures files == Added(old(files), file, id)
      ensures text == old(text) && name == old(name)
      ensures stored == Some(Snapshot(files, text, name))
    {
      var e := NewEntry(file, id);
      files := files + [e];
      Save();
      var early := EarlyFailure(e);
      if early.Some? {
        var i := IndexOfId(files, id);
        assert files[|files| - 1].id == id;
        files := files[i := Fail(files[i], early.value)];
        Save();
      }
    }

    /** `handleFiles`: a batch that would take the list over five files is
        refused whole; otherwise every file is added in batch order.
        `ids(k)` is the id generated for the `k`-th file. */
    method HandleFiles(batch: seq<PickedFile>, ids: nat -> string) returns (accepted: bool)
      modifies this
      ensures accepted <==> |old(files)| + |batch| <= MaxFiles
      ensures accepted ==> files == AddedAll(old(files), batch, ids)
      ensures !accepted ==> files == old(files) && stored == old(stored)
      ensures text == old(text) && name == old(name)
      ensures accepted && batch != [] ==> stored == Some(Snapshot(files, text, name))
      ensures |old(files)| <= MaxFiles ==> |files| <= MaxFiles
    {
      if |files| + |batch| > MaxFiles {
        return false;
      }
      ghost var before := files;
      for k := 0 to |batch|
        invariant files == AddedAll(before, batch[..k], ids)
        invariant text == old(text) && name == old(name)
        invariant k == 0 ==> stored == old(stored)
        invariant k > 0 ==> stored == Some(Snapshot(files, text, name))
      {
        AddFile(batch[k], ids(k));
        assert batch[..k + 1][..k] == batch[..k];
      }
      TakeAll(batch);
      return true;
    }

    /** `processFile` once the reader has finished: nothing happens for an
        unknown id; otherwise the entry is settled and the list saved. */
    method ProcessFile(id: string, read: ReadResult)
      modifies this
      ensures files == Processed(old(files), id, read)
      ensures text == old(text) && name == old(name)
      ensures IndexOfId(old(files), id) < 0 ==> stored == old(stored)
      ensures IndexOfId(old(files), id) >= 0 ==> stored == Some(Snapshot(files, text, name))
    {
      var i := IndexOfId(files, id);
      if i < 0 {
        return;
      }
      files := files[i := Settle(files[i], read)];
      Save();
    }

    /** `removeFile`: drops the entries with that id; an emptied list clears
        the whole context, attached text and name included. */
    method RemoveFile(id: string)
      modifies this
      ensures files == WithoutId(old(files), id)
      ensures files == [] ==> text == "" && name == "" && stored == None
      ensures files != [] ==> text == old(text) && name == old(name) && stored == Some(Snapshot(files, text, name))
    {
      files := WithoutId(files, id);
      Save();
      if files == [] {
        Clear();
      }
    }

    /** `clearAllFiles`: with a non-empty list and the user's confirmation the
        list is emptied and saved; the attached text and name are kept. */
    method ClearAllFiles(confirmed: bool)
      modifies this
      ensures text == old(text) && name == old(name)
      ensures old(files) != [] && confirmed ==> files == [] && stored == Some(SavedContext([], text, name))
      ensures !(old(files) != [] && confirmed) ==> files == old(files) && stored == old(stored)
    {
      if files == [] {
        return;
      }
      if confirmed {
        files := [];
        Save();
      }
    }

    /** `attachFiles`: without an attachable entry nothing changes;
        otherwise the text and name describe the attachable entries. */
    method AttachFiles() returns (attached: bool)
      modifies this
      ensures files == old(files)
      ensures attached <==> Attachable(files) != []
      ensures attached ==>
        (&& text == AttachedText(Attachable(files))
         && name == AttachedName(|Attachable(files)|)
         && stored == Some(Snapshot(files, text, name)))
      ensures !attached ==> text == old(text) && name == old(name) && stored == old(stored)
    {
      var ready := Attachable(files);
      if ready == [] {
        return false;
      }
      text := AttachedText(ready);
      name := AttachedName(|ready|);
      Save();
      return true;
    }
  }
}
