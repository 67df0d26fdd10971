/**
 * The pitch-deck upload form: the file gate (type, then size), the ordered
 * submit checks, the upload progress percentage, the reset after a
 * successful upload and the list of report sections shown afterwards.
 */
module UploadPage {
  import opened Wrappers
  import opened Text
  import opened Seqs
  import Arith

  /** A selected file: its name, MIME type and size in bytes. */
  datatype FileInfo = FileInfo(name: string, mimeType: string, size: int)

  const PdfType: string := "application/pdf"
  const PptxType: string := "application/vnd.openxmlformats-officedocument.presentationml.presentation"
  const MaxFileSize: int := 50 * 1024 * 1024

  /** What a file selection leads to. */
  datatype FileCheck = NoFile | Rejected(message: string) | Accepted(file: FileInfo)

  /** The file gate: only the first file counts; its type is checked before its size. */
  function CheckFile(files: seq<FileInfo>): (r: FileCheck)
    ensures r.NoFile? <==> files == []
    ensures r.Accepted? <==> files != [] && files[0].mimeType in [PdfType, PptxType] && files[0].size <= MaxFileSize
    ensures r.Accepted? ==> r.file == files[0]
    ensures files != [] && files[0].mimeType !in [PdfType, PptxType] ==> r == Rejected("Please upload a PDF or PPTX file")
    ensures files != [] && files[0].mimeType in [PdfType, PptxType] && files[0].size > MaxFileSize ==> r == Rejected("File size must be less than 50MB")
  {
    if |files| == 0 then NoFile
    else
      var file := files[0];
      if file.mimeType !in [PdfType, PptxType] then Rejected("Please upload a PDF or PPTX file")
      else if file.size > MaxFileSize then Rejected("File size must be less than 50MB")
      else Accepted(file)
  }

  /** Later files of a selection are ignored, and a dropped selection is treated as its first file alone. */
  lemma CheckFileFirstOnly(files: seq<FileInfo>)
    requires files != []
    ensures CheckFile(files) == CheckFile([files[0]])
  {
  }

  /** A PPTX deck of exactly 50 MiB passes; one byte more fails on size. */
  lemma SizeLimitInclusive(name: string)
    ensures CheckFile([FileInfo(name, PptxType, MaxFileSize)]).Accepted?
    ensures CheckFile([FileInfo(name, PptxType, MaxFileSize + 1)]) == Rejected("File size must be less than 50MB")
  {
  }

  /** What a submit leads to: a refusal with its message, or the trimmed fields and the file being sent. */
  datatype SubmitCheck = Refused(message: string) | Send(userId: string, title: string, file: FileInfo)

  /** The submit checks, in order: user id, title, file; a field is missing when it trims to nothing, that is when it is all whitespace. */
  function ValidateSubmission(userId: string, title: string, file: Option<FileInfo>): SubmitCheck
  {
    if AllWhitespace(userId) then Refused("Please enter a User ID")
    else if AllWhitespace(title) then Refused("Please enter a Title")
    else if file.None? then Refused("Please select a file")
    else Send(Trim(userId), Trim(title), file.value)
  }

  /** A submit goes out exactly when all three fields are present, with the trimmed values; otherwise the first failing check names the refusal. */
  lemma ValidateSubmissionSpec(userId: string, title: string, file: Option<FileInfo>)
    ensures var r := ValidateSubmission(userId, title, file);
            (r.Send? <==> !AllWhitespace(userId) && !AllWhitespace(title) && file.Some?)
            && (r.Send? ==> r.userId == Trim(userId) && r.title == Trim(title) && r.file == file.value)
            && (AllWhitespace(userId) ==> r == Refused("Please enter a User ID"))
            && (!AllWhitespace(userId) && AllWhitespace(title) ==> r == Refused("Please enter a Title"))
            && (!AllWhitespace(userId) && !AllWhitespace(title) && file.None? ==> r == Refused("Please select a file"))
  {
    TrimEmptyIffBlank(userId);
    TrimEmptyIffBlank(title);
  }

  /** A whitespace-only id is refused first, whatever the other fields hold. */
  lemma BlankUserIdRefusedFirst(userId: string, title: string, file: Option<FileInfo>)
    requires AllWhitespace(userId)
    ensures ValidateSubmission(userId, title, file) == Refused("Please enter a User ID")
  {
    ValidateSubmissionSpec(userId, title, file);
  }

  /** The upload percentage, `Math.round(loaded * 100 / total)`. */
  function ProgressPercent(loaded: nat, total: nat): (p: int)
    requires total > 0
    ensures loaded <= total ==> 0 <= p <= 100
    ensures loaded == total ==> p == 100
    ensures loaded == 0 ==> p == 0
    ensures p as real - 0.5 <= (loaded * 100) as real / total as real < p as real + 0.5
  {
    var x := (loaded * 100) as real / total as real;
    if loaded <= total then
      Arith.PercentBetween(loaded, total);
      Arith.RoundHalfUpInt(0);
      Arith.RoundHalfUpInt(100);
      Arith.RoundHalfUpMonotone(0.0, x);
      Arith.RoundHalfUpMonotone(x, 100.0);
      Arith.RoundHalfUp(x)
    else
      Arith.RoundHalfUp(x)
  }

  /** More bytes sent never shows a lower percentage. */
  lemma ProgressPercentMonotone(a: nat, b: nat, total: nat)
    requires total > 0 && a <= b
    ensures ProgressPercent(a, total) <= ProgressPercent(b, total)
  {
    var t := total as real;
    assert (b * 100) as real / t - (a * 100) as real / t == ((b - a) * 100) as real / t;
    Arith.RoundHalfUpMonotone((a * 100) as real / total as real, (b * 100) as real / total as real);
  }

  /** The keys of the generated report not shown as sections. */
  predicate IsSectionKey(k: string)
  {
    k != "overall_score" && k != "validation_outcome" && k != "metadata"
  }

  /** `key_sections`: the report's keys minus the score, the outcome and the metadata, in order. */
  function KeySections(reportKeys: seq<string>): (r: seq<string>)
    ensures forall i :: 0 <= i < |r| ==> r[i] in reportKeys && IsSectionKey(r[i])
    ensures forall i :: 0 <= i < |reportKeys| && IsSectionKey(reportKeys[i]) ==> reportKeys[i] in r
  {
    Filter(reportKeys, IsSectionKey)
  }

  /** Sections are taken key by key: the sections of joined key lists are the joined sections. */
  lemma KeySectionsAppend(a: seq<string>, b: seq<string>)
    ensures KeySections(a + b) == KeySections(a) + KeySections(b)
  {
    FilterAppend(a, b, IsSectionKey);
  }

  /** The server's answer to an upload. */
  datatype UploadResponse = UploadResponse(success: bool, reportId: string, reportKeys: seq<string>, error: Option<string>)

  /** What the upload request gave: an answer, or a thrown error with its response body's error and its message. */
  datatype UploadResult =
    | Answered(response: UploadResponse)
    | Thrown(responseError: Option<string>, message: Option<string>)

  datatype Toast = ToastSuccess(message: string) | ToastError(message: string)


  const DefaultUserId: string := "myname_001"

  /** The form's state. */
  class UploadForm {
    var userId: string
    var title: string
    var file: Option<FileInfo>
    var isLoading: bool
    var uploadProgress: int
    var response: Option<UploadResponse>

    constructor ()
      ensures userId == [] && title == [] && file == None
      ensures !isLoading && uploadProgress == 0 && response == None
    {
      userId := [];
      title := [];
      file := None;
      isLoading := false;
      uploadProgress := 0;
      response := None;
    }

    method ChangeUserId(value: string)
      modifies this
      ensures userId == value
      ensures title == old(title) && file == old(file)
      ensures isLoading == old(isLoading) && uploadProgress == old(uploadProgress) && response == old(response)
    {
      userId := value;
    }

    method ChangeTitle(value: string)
      modifies this
      ensures title == value
      ensures userId == old(userId) && file == old(file)
      ensures isLoading == old(isLoading) && uploadProgress == old(uploadProgress) && response == old(response)
    {
      title := value;
    }

    /** `handleFileChange`: an accepted file replaces only the file and resets the progress; otherwise nothing changes. */
    method ChangeFile(files: seq<FileInfo>) returns (error: Option<string>)
      modifies this
      ensures CheckFile(files).Accepted? ==> file == Some(CheckFile(files).file) && uploadProgress == 0 && error == None
      ensures !CheckFile(files).Accepted? ==> file == old(file) && uploadProgress == old(uploadProgress)
      ensures CheckFile(files).Rejected? ==> error == Some(CheckFile(files).message)
      ensures CheckFile(files).NoFile? ==> error == None
      ensures userId == old(userId) && title == old(title)
      ensures isLoading == old(isLoading) && response == old(response)
    {
      match CheckFile(files)
      case NoFile =>
        error := None;
      case Rejected(message) =>
        error := Some(message);
      case Accepted(f) =>
        file := Some(f);
        uploadProgress := 0;
        error := None;
    }

    /** `handleDrop`: the first dropped file goes through the same gate, when the file input is mounted. */
    method Drop(files: seq<FileInfo>, inputMounted: bool) returns (error: Option<string>)
      modifies this
      ensures files != [] && inputMounted && CheckFile(files).Accepted? ==> file == Some(files[0]) && uploadProgress == 0
      ensures !(files != [] && inputMounted && CheckFile(files).Accepted?) ==>
                file == old(file) && uploadProgress == old(uploadProgress)
      ensures files != [] && inputMounted && CheckFile(files).Rejected? ==> error == Some(CheckFile(files).message)
      ensures userId == old(userId) && title == old(title)
      ensures isLoading == old(isLoading) && response == old(response)
    {
      error := None;
      if |files| > 0 && inputMounted {
        CheckFileFirstOnly(files);
        error := ChangeFile([files[0]]);
      }
    }

    /** The synchronous part of `handleSubmit`: the checks, then loading starts with the progress at 0. */
    method BeginSubmit() returns (r: SubmitCheck)
      modifies this
      ensures userId == old(userId) && title == old(title) && file == old(file) && response == old(response)
      ensures r == ValidateSubmission(userId, title, file)
      ensures r.Send? ==> isLoading && uploadProgress == 0
      ensures r.Refused? ==> isLoading == old(isLoading) && uploadProgress == old(uploadProgress)
    {
      r := ValidateSubmission(userId, title, file);
      if r.Send? {
        isLoading, uploadProgress := true, 0;
      }
    }

    /** A progress event: the percentage is updated only when the total is known and non-zero. */
    method UploadProgressEvent(loaded: nat, total: nat)
      modifies this
      ensures total > 0 ==> uploadProgress == ProgressPercent(loaded, total)
      ensures total == 0 ==> uploadProgress == old(uploadProgress)
      ensures userId == old(userId) && title == old(title) && file == old(file)
      ensures isLoading == old(isLoading) && response == old(response)
    {
      if total > 0 {
        uploadProgress := ProgressPercent(loaded, total);
      }
    }

    /**
     * The end of `handleSubmit`: a successful answer is kept and the form
     * reset; any other outcome keeps the form and the previous answer.
     * Loading ends and the progress returns to 0 in every case.
     */
    method FinishSubmit(result: UploadResult) returns (toast: Toast)
      modifies this
      ensures result.Answered? && result.response.success ==>
                response == Some(result.response) && userId == DefaultUserId && title == [] && file == None
                && toast == ToastSuccess("Report generated successfully!")
      ensures !(result.Answered? && result.response.success) ==>
                response == old(response) && userId == old(userId) && title == old(title) && file == old(file)
      ensures result.Answered? && !result.response.success ==>
                toast == ToastError(OrElse(result.response.error, "Failed to generate report"))
      ensures result.Thrown? ==>
                toast == ToastError(OrElse(result.responseError, OrElse(result.message, "An error occurred")))
      ensures !isLoading && uploadProgress == 0
    {
      if result.Answered? && result.response.success {
        response := Some(result.response);
        toast := ToastSuccess("Report generated successfully!");
        userId := DefaultUserId;
        title := [];
        file := None;
      } else if result.Answered? {
        toast := ToastError(OrElse(result.response.error, "Failed to generate report"));
      } else {
        toast := ToastError(OrElse(result.responseError, OrElse(result.message, "An error occurred")));
      }
      isLoading := false;
      uploadProgress := 0;
    }
  }

  /** After a successful upload the form refuses to submit again until a title and a file are chosen. */
  lemma ResetFormNeedsTitle()
    ensures ValidateSubmission(DefaultUserId, [], None) == Refused("Please enter a Title")
  {
    assert !IsWhitespace(DefaultUserId[0]);
  }
}
