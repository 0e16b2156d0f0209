/** Medicine OCR (`ocr/ocr.js`): the formatting of recognised text into a
    medicine group and an "other" group, and the `ocrContext` object that
    `processFileWithOCR` and `clearOCRContext` update.  Which lines look
    like medicine information is decided by case-insensitive patterns; here
    that test is the parameter `isMedicine`.  The image extractor's outcome
    is an input, and so are the export date and the PDF size as `toFixed`
    formats it. */
module Ocr {
  import opened Wrappers
  import opened JsString

  // ---------------------------------------------------------------------
  // Grouping the lines

  /** `text.split('\n').filter(line => line.trim())`. */
  function NonBlankLines(text: string): (r: seq<string>)
    ensures forall k :: 0 <= k < |r| ==> Trim(r[k]) != [] && '\n' !in r[k]
  {
    SplitPiecesFree(text, '\n');
    Filter(Split(text, '\n'), NotBlank)
  }

  /** The lines the medicine patterns match, in their original order. */
  function MedicineLines(lines: seq<string>, isMedicine: string -> bool): seq<string> {
    Filter(lines, isMedicine)
  }

  /** The lines no medicine pattern matches, in their original order. */
  function OtherLines(lines: seq<string>, isMedicine: string -> bool): (r: seq<string>)
    ensures |r| <= |lines|
    ensures forall k :: 0 <= k < |r| ==> !isMedicine(r[k]) && r[k] in lines
  {
    if lines == [] then []
    else (if isMedicine(lines[0]) then [] else [lines[0]]) + OtherLines(lines[1..], isMedicine)
  }

  /** Every line lands in exactly one of the two groups: together they hold
      each line as often as the input does. */
  lemma {:induction false} GroupsPartitionLines(lines: seq<string>, isMedicine: string -> bool)
    ensures multiset(MedicineLines(lines, isMedicine)) + multiset(OtherLines(lines, isMedicine)) == multiset(lines)
  {
    if lines != [] {
      var head := lines[0];
      var med := MedicineLines(lines[1..], isMedicine);
      var other := OtherLines(lines[1..], isMedicine);
      GroupsPartitionLines(lines[1..], isMedicine);
      assert lines == [head] + lines[1..];
      if isMedicine(head) {
        assert MedicineLines(lines, isMedicine) == [head] + med;
        assert OtherLines(lines, isMedicine) == other;
      } else {
        assert MedicineLines(lines, isMedicine) == med;
        assert OtherLines(lines, isMedicine) == [head] + other;
      }
    }
  }

  /** Grouping commutes with cutting the input in two, so each group keeps
      the lines in the order they came. */
  lemma {:induction false} GroupsKeepOrder(a: seq<string>, b: seq<string>, isMedicine: string -> bool)
    ensures MedicineLines(a + b, isMedicine) == MedicineLines(a, isMedicine) + MedicineLines(b, isMedicine)
    ensures OtherLines(a + b, isMedicine) == OtherLines(a, isMedicine) + OtherLines(b, isMedicine)
  {
    if a == [] {
      assert a + b == b;
    } else {
      var rest := a[1..];
      GroupsKeepOrder(rest, b, isMedicine);
      assert (a + b)[0] == a[0];
      assert (a + b)[1..] == rest + b;
      var keep := isMedicine(a[0]);
      var med: seq<string> := if keep then [a[0]] else [];
      var other: seq<string> := if keep then [] else [a[0]];
      assert MedicineLines(a + b, isMedicine) == med + MedicineLines(rest + b, isMedicine);
      assert MedicineLines(a, isMedicine) == med + MedicineLines(rest, isMedicine);
      LinesAssoc(med, MedicineLines(rest, isMedicine), MedicineLines(b, isMedicine));
      assert OtherLines(a + b, isMedicine) == other + OtherLines(rest + b, isMedicine);
      assert OtherLines(a, isMedicine) == other + OtherLines(rest, isMedicine);
      LinesAssoc(other, OtherLines(rest, isMedicine), OtherLines(b, isMedicine));
    }
  }

  // ---------------------------------------------------------------------
  // The formatted text

  const ExtractedBanner: string := "=== MEDICINE INFORMATION EXTRACTED ===\n"
  const MedicineHeading: string := [
    '\U{1F50D}', ' ', 'D', 'E', 'T', 'E', 'C', 'T', 'E', 'D', ' ', 'M', 'E', 'D', 'I', 'C', 'I', 'N', 'E',
    ' ', 'D', 'E', 'T', 'A', 'I', 'L', 'S', ':', '\n']
  const OtherHeading: string := [
    '\U{1F4C4}', ' ', 'A', 'D', 'D', 'I', 'T', 'I', 'O', 'N', 'A', 'L', ' ', 'T', 'E', 'X', 'T', ':', '\n']
  const ExtractionClosing: string :=
    "\n=== END OF EXTRACTION ===\nNote: Please verify all medicine details with your doctor.\n"

  /** The medicine section: nothing for an empty group, otherwise the
      heading, the lines one per line, and a blank line. */
  function MedicineSection(med: seq<string>): string {
    if med == [] then "" else MedicineHeading + Join(med, "\n") + "\n\n"
  }

  /** The "additional text" section: nothing for an empty group, otherwise
      the heading and the lines one per line. */
  function OtherSection(other: seq<string>): string {
    if other == [] then "" else OtherHeading + Join(other, "\n") + "\n"
  }

  /** What follows the banner and precedes the closing lines: the file
      name, the extraction date (`date`, as the locale formats it) and the
      two sections. */
  function ExtractionBody(lines: seq<string>, fileName: string, date: string,
                          isMedicine: string -> bool): string {
    "File: " + fileName + "\n" + "Extracted on: " + date + "\n\n"
      + MedicineSection(MedicineLines(lines, isMedicine)) + OtherSection(OtherLines(lines, isMedicine))
  }

  /** `formatMedicineText`. */
  function FormatMedicineText(text: string, fileName: string, date: string,
                              isMedicine: string -> bool): string {
    ExtractedBanner + ExtractionBody(NonBlankLines(text), fileName, date, isMedicine) + ExtractionClosing
  }

  lemma Framed(a: string, b: string, c: string)
    ensures StartsWith(a + b + c, a) && EndsWith(a + b + c, c)
  {
    assert (a + b + c)[..|a|] == a;
    assert (a + b + c)[|a + b|..] == c;
  }

  /** The formatted text always opens with the banner and closes with the
      advice to check with a doctor. */
  lemma FormatFraming(text: string, fileName: string, date: string, isMedicine: string -> bool)
    ensures var r := FormatMedicineText(text, fileName, date, isMedicine);
      StartsWith(r, ExtractedBanner) && EndsWith(r, ExtractionClosing)
  {
    Framed(ExtractedBanner, ExtractionBody(NonBlankLines(text), fileName, date, isMedicine), ExtractionClosing);
  }

  /** A section built from a heading, a non-empty group joined by line
      breaks and a tail starts with the heading, and the text between
      heading and tail splits back into the group. */
  lemma SectionReadsBack(heading: string, group: seq<string>, tail: string)
    requires group != [] && forall k :: 0 <= k < |group| ==> '\n' !in group[k]
    ensures var s := heading + Join(group, "\n") + tail;
      StartsWith(s, heading) && |heading| <= |s| - |tail|
      && Split(s[|heading|..|s| - |tail|], '\n') == group
  {
    var j := Join(group, "\n");
    var s := heading + j + tail;
    assert s[..|heading|] == heading;
    assert s[|heading|..|s| - |tail|] == j;
    SplitJoin(group, '\n');
  }

  /** A section is written exactly when its group is non-empty, and then
      its lines read back, split at the line breaks, as the group itself. */
  lemma SectionsReadBack(text: string, isMedicine: string -> bool)
    ensures var lines := NonBlankLines(text);
      var med := MedicineLines(lines, isMedicine);
      var other := OtherLines(lines, isMedicine);
      (&& (MedicineSection(med) == [] <==> med == [])
       && (OtherSection(other) == [] <==> other == [])
       && (med != [] ==>
             var s := MedicineSection(med);
             StartsWith(s, MedicineHeading) && Split(s[|MedicineHeading|..|s| - 2], '\n') == med)
       && (other != [] ==>
             var s := OtherSection(other);
             StartsWith(s, OtherHeading) && Split(s[|OtherHeading|..|s| - 1], '\n') == other))
  {
    var lines := NonBlankLines(text);
    var med := MedicineLines(lines, isMedicine);
    var other := OtherLines(lines, isMedicine);
    if med != [] {
      forall k | 0 <= k < |med| ensures '\n' !in med[k] {
        assert med[k] in lines;
      }
      SectionReadsBack(MedicineHeading, med, "\n\n");
    }
    if other != [] {
      forall k | 0 <= k < |other| ensures '\n' !in other[k] {
        assert other[k] in lines;
      }
      SectionReadsBack(OtherHeading, other, "\n");
    }
  }

  // ---------------------------------------------------------------------
  // The OCR context

  const UnsupportedType: string := "Unsupported file type for OCR"

  /** The notice `extractTextFromPDF` resolves with; `sizeKb` is the file
      size in KB as `toFixed(1)` writes it. */
  function PdfNotice(fileName: string, sizeKb: string): string {
    "=== PDF DOCUMENT UPLOADED ===\n" + "File: " + fileName + "\n" + "Size: " + sizeKb + " KB\n\n"
      + PdfRequest
  }

  const PdfRequest: string :=
    ['\U{26A0}', '\U{FE0F}'] + " PDF text extraction requires advanced processing.\n"
    + "Please describe the medicine information from this PDF:\n\n"
    + "1. Medicine name:\n2. Patient instructions:\n3. Doctor's notes:\n4. Any concerns/questions:\n\n"
    + "I'll help analyze the information you provide."

  /** `window.ocrContext`. */
  class OcrContext {
    var isProcessing: bool
    var extractedText: string
    var fileName: string
    var fileType: string

    constructor ()
      ensures !isProcessing && extractedText == "" && fileName == "" && fileType == ""
    {
      isProcessing := false;
      extractedText := "";
      fileName := "";
      fileType := "";
    }

    /** `processFileWithOCR` for a file called `name` of MIME type `mime`.
        `image` is what the image extractor settles with: `None` when the
        image cannot be loaded and the promise is rejected, in which case
        the call ends with that rejection (`None` here) before anything but
        the processing flag and the name is set. */
    method ProcessFileWithOCR(name: string, mime: string, image: Option<Result<string>>, sizeKb: string)
      returns (result: Option<Result<string>>)
      modifies this
      ensures fileName == name
      ensures StartsWith(mime, "image/") ==> result == image
      ensures StartsWith(mime, "image/") && image.Some? ==> fileType == "image"
      ensures !StartsWith(mime, "image/") && mime == "application/pdf" ==>
        result == Some(Success(PdfNotice(name, sizeKb))) && fileType == "pdf"
      ensures !StartsWith(mime, "image/") && mime != "application/pdf" ==>
        result == Some(Failure(UnsupportedType)) && fileType == old(fileType)
      ensures result.None? ==> isProcessing && fileType == old(fileType) && extractedText == old(extractedText)
      ensures result.Some? ==> !isProcessing
      ensures result.Some? && result.value.Success? ==> extractedText == result.value.value
      ensures result.Some? && result.value.Failure? ==> extractedText == old(extractedText)
    {
      isProcessing := true;
      fileName := name;
      var outcome: Result<string>;
      if StartsWith(mime, "image/") {
        if image.None? {
          return None;
        }
        outcome := image.value;
        fileType := "image";
      } else if mime == "application/pdf" {
        outcome := Success(PdfNotice(name, sizeKb));
        fileType := "pdf";
      } else {
        outcome := Failure(UnsupportedType);
      }
      if outcome.Success? {
        extractedText := outcome.value;
      }
      isProcessing := false;
      return Some(outcome);
    }

    /** `clearOCRContext`. */
    method Clear()
      modifies this
      ensures !isProcessing && extractedText == "" && fileName == "" && fileType == ""
    {
      isProcessing := false;
      extractedText := "";
      fileName := "";
      fileType := "";
    }
  }
}
