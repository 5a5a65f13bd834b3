/** The upload form's validation schema of the document-template page. */
module SuratValidation {
  import opened Common

  /** 5 MiB. */
  const MaxFileSize: nat := 5 * 1024 * 1024

  /** .doc, .docx and .pdf. */
  const AcceptedFileTypes: seq<string> := [
    "application/msword",
    "application/vnd.openxmlformats-officedocument.wordprocessingml.document",
    "application/pdf"
  ]

  /** The metadata of a chosen file. */
  datatype FileMeta = FileMeta(name: string, size: nat, mimeType: string)

  /** The form's values: the name and the first chosen file, if any. */
  datatype FormValues = FormValues(nama: string, file: Option<FileMeta>)

  const EmptyForm: FormValues := FormValues("", None)

  datatype Issue = NameRequired | FileRequired | FileTooLarge | UnsupportedFormat

  /** The inline message shown for each issue. */
  function Message(issue: Issue): string
  {
    match issue
    case NameRequired => "Nama format surat harus diisi"
    case FileRequired => "File harus dipilih"
    case FileTooLarge => "Ukuran file maksimal 5MB"
    case UnsupportedFormat => "Format file harus .doc, .docx, atau .pdf"
  }

  /** A file the backing store may receive, independent of check order. */
  predicate Acceptable(file: Option<FileMeta>)
  {
    file.Some? && file.value.size <= MaxFileSize && file.value.mimeType in AcceptedFileTypes
  }

  /** The `file` field's refinement: at most one issue, first failure wins,
      in the order presence, size, type. */
  function FileIssue(file: Option<FileMeta>): (r: Option<Issue>)
    ensures r.None? <==> Acceptable(file)
    ensures r == Some(FileRequired) <==> file.None?
    ensures r == Some(FileTooLarge) <==> file.Some? && file.value.size > MaxFileSize
    ensures r == Some(UnsupportedFormat) <==>
      file.Some? && file.value.size <= MaxFileSize && file.value.mimeType !in AcceptedFileTypes
    ensures r != Some(NameRequired)
  {
    if file.None? then Some(FileRequired)
    else if file.value.size > MaxFileSize then Some(FileTooLarge)
    else if file.value.mimeType !in AcceptedFileTypes then Some(UnsupportedFormat)
    else None
  }

  /** The whole schema: the `nama` field and the `file` field are checked
      independently, so an empty name and a bad file are both reported. */
  function Validate(form: FormValues): (issues: seq<Issue>)
    ensures issues == [] <==> |form.nama| >= 1 && Acceptable(form.file)
    ensures NameRequired in issues <==> form.nama == ""
    ensures FileIssue(form.file).Some? ==> FileIssue(form.file).value in issues
    ensures forall k :: 0 <= k < |issues| && issues[k] != NameRequired ==> FileIssue(form.file) == Some(issues[k])
    ensures |issues| <= 2 && (|issues| == 2 ==> issues[0] == NameRequired)
    ensures |issues| == (if form.nama == "" then 1 else 0) + (if FileIssue(form.file).Some? then 1 else 0)
  {
    var nameIssues := if |form.nama| < 1 then [NameRequired] else [];
    var fileIssues := match FileIssue(form.file) case Some(i) => [i] case None => [];
    nameIssues + fileIssues
  }

  /** Each issue has its own inline message. */
  lemma MessagesDistinct(a: Issue, b: Issue)
    requires a != b
    ensures Message(a) != Message(b)
  {
  }

  /** A file that is both too large and of the wrong type gets the size message. */
  lemma SizeCheckedBeforeType(file: FileMeta)
    requires file.size > MaxFileSize && file.mimeType !in AcceptedFileTypes
    ensures FileIssue(Some(file)) == Some(FileTooLarge)
    ensures Validate(FormValues("Surat", Some(file))) == [FileTooLarge]
  {
  }

  /** A named file of exactly 5 MiB of an accepted type passes, whichever of the three types. */
  lemma BoundaryFileAccepted(nama: string, name: string, k: nat)
    requires nama != "" && k < 3
    ensures Validate(FormValues(nama, Some(FileMeta(name, 5242880, AcceptedFileTypes[k])))) == []
  {
  }

  /** An empty name is rejected even when the file is fine. */
  lemma EmptyNameRejected(file: Option<FileMeta>)
    ensures Validate(FormValues("", file)) != []
    ensures Validate(FormValues("", file))[0] == NameRequired
  {
  }
}
