/**
 * The checks the `/ocr` handler makes on its input file before it builds the
 * `ocrmypdf` command: exactly one of an uploaded `file` and a `file_url`, an
 * accepted file extension, a non-empty upload, a successful download of a
 * PDF or image, and a size limit in megabytes.
 *
 * Each refusal is an HTTP 400 with a fixed message. Two inputs make the
 * handler fail before it reaches a check of its own (a `file` form field that
 * holds a non-empty text rather than an upload, and a download without a
 * `Content-Type` header); both are modelled as `Unhandled`.
 */
module Validation {
  import opened Wrappers
  import opened Text

  /** An uploaded file, as the web framework hands it over. */
  datatype UploadedFile = UploadedFile(filename: string, size: nat)

  /** The `file` form field: absent, a plain text value, or an upload. */
  datatype FileField = NoFile | TextField(text: string) | UploadField(upload: UploadedFile)

  /** What the HTTP GET of `file_url` returned: the status, the `Content-Type` header if any, and the body size. */
  datatype Download = Download(status: int, contentType: Option<string>, size: nat)

  /** The file the rest of the handler works on: its name and its size in bytes. */
  datatype Accepted = Accepted(fileName: string, fileSize: nat)

  /** An `HTTPException` raised by the handler, or an exception it does not catch. */
  datatype Failure = Rejected(status: int, detail: string) | Unhandled

  /** Python truthiness of the `file` field: an upload object is truthy, a text only when non-empty. */
  predicate FileGiven(file: FileField) {
    file.UploadField? || (file.TextField? && file.text != "")
  }

  /** Python truthiness of the optional `file_url` string. */
  predicate UrlGiven(fileUrl: Option<string>) {
    fileUrl.Some? && fileUrl.value != ""
  }

  const Extensions: seq<string> := [".pdf", ".jpg", ".jpeg", ".png", ".gif", ".bmp", ".tiff", ".webp"]

  /** `name.lower().endswith((".pdf", ".jpg", …))` */
  predicate HasAcceptedExtension(name: string) {
    EndsWithAny(Lower(name), Extensions)
  }

  /** The `Content-Type` test on a download. */
  predicate IsPdfOrImageType(contentType: string) {
    StartsWith(contentType, "application/pdf") || StartsWith(contentType, "image/")
  }

  /** `max_file_size_in_mb * 1024 * 1024` */
  function SizeLimit(maxMb: int): int {
    maxMb * 1024 * 1024
  }

  const RequiredMessage := "File or file_url is required"
  const OnlyOneMessage := "Only one of file or file_url is allowed"
  const UploadTypeMessage := "File must be a PDF or image"
  const EmptyMessage := "File is empty"
  const UrlTypeMessage := "File url must be a PDF or image"
  const DownloadMessage := "Failed to download file from url"
  const ContentTypeMessage := "File is not a PDF or image"

  function TooLargeMessage(maxMb: int): string {
    "File size must be less than " + IntToString(maxMb) + " MB"
  }

  function BadRequest(detail: string): Result<Accepted, Failure> {
    Err(Rejected(400, detail))
  }

  /** The size check that closes both branches. */
  function CheckSize(a: Accepted, maxMb: int): Result<Accepted, Failure> {
    if a.fileSize > SizeLimit(maxMb) then BadRequest(TooLargeMessage(maxMb)) else Ok(a)
  }

  /**
   * The conditions under which the handler goes on to run `ocrmypdf`, stated
   * as one conjunction per branch rather than as the sequence of checks.
   */
  predicate Admissible(file: FileField, fileUrl: Option<string>, download: Download, maxMb: int) {
    FileGiven(file) != UrlGiven(fileUrl) &&
    if FileGiven(file) then
      file.UploadField? && HasAcceptedExtension(file.upload.filename) &&
      0 < file.upload.size <= SizeLimit(maxMb)
    else
      HasAcceptedExtension(fileUrl.value) && download.status == 200 &&
      download.contentType.Some? && IsPdfOrImageType(download.contentType.value) &&
      download.size <= SizeLimit(maxMb)
  }

  /**
   * The checks in the handler's order. `download` is consulted only on the
   * URL branch, where the handler fetches `file_url`.
   */
  function Validate(file: FileField, fileUrl: Option<string>, download: Download, maxMb: int)
    : (r: Result<Accepted, Failure>)
    ensures r.Ok? <==> Admissible(file, fileUrl, download, maxMb)
    ensures r.Ok? ==>
              r.value == if file.UploadField? then Accepted(file.upload.filename, file.upload.size)
                         else Accepted(Basename(fileUrl.value), download.size)
    ensures r.Ok? ==> HasAcceptedExtension(r.value.fileName)
    ensures r.Ok? ==> r.value.fileSize <= SizeLimit(maxMb)
    ensures r.Err? && r.error.Rejected? ==> r.error.status == 400
  {
    if !FileGiven(file) && !UrlGiven(fileUrl) then BadRequest(RequiredMessage)
    else if FileGiven(file) && UrlGiven(fileUrl) then BadRequest(OnlyOneMessage)
    else if FileGiven(file) then
      if file.TextField? then Err(Unhandled)
      else if !HasAcceptedExtension(file.upload.filename) then BadRequest(UploadTypeMessage)
      else if file.upload.size == 0 then BadRequest(EmptyMessage)
      else CheckSize(Accepted(file.upload.filename, file.upload.size), maxMb)
    else
      var url := fileUrl.value;
      if !HasAcceptedExtension(url) then BadRequest(UrlTypeMessage)
      else if download.status != 200 then BadRequest(DownloadMessage)
      else if download.contentType.None? then Err(Unhandled)
      else if !IsPdfOrImageType(download.contentType.value) then BadRequest(ContentTypeMessage)
      else
        UrlNameKeepsExtension(url);
        CheckSize(Accepted(Basename(url), download.size), maxMb)
  }

  /** The URL's last segment keeps the extension that the whole URL was accepted for. */
  lemma UrlNameKeepsExtension(url: string)
    requires HasAcceptedExtension(url)
    ensures HasAcceptedExtension(Basename(url))
  {
    var low := Lower(url);
    var i :| 0 <= i < |Extensions| && EndsWith(low, Extensions[i]);
    var ext := Extensions[i];
    ExtensionHasNoSlash(i);
    BasenameKeepsSuffix(low, ext);
    LowerBasename(url);
    assert EndsWith(Lower(Basename(url)), ext);
  }

  lemma ExtensionHasNoSlash(i: nat)
    requires i < |Extensions|
    ensures '/' !in Extensions[i]
  {
  }

  /** The presence checks come first and in this order, whatever else the request holds. */
  lemma PresenceChecks(file: FileField, fileUrl: Option<string>, download: Download, maxMb: int)
    ensures !FileGiven(file) && !UrlGiven(fileUrl) ==>
      Validate(file, fileUrl, download, maxMb) == BadRequest(RequiredMessage)
    ensures FileGiven(file) && UrlGiven(fileUrl) ==>
      Validate(file, fileUrl, download, maxMb) == BadRequest(OnlyOneMessage)
  {
  }

  /**
   * An upload with a name outside the eight extensions is refused with the
   * upload message, before its size is looked at, whenever `file_url` is
   * falsy (absent or empty).
   */
  lemma UploadExtension(u: UploadedFile, fileUrl: Option<string>, download: Download, maxMb: int)
    requires !UrlGiven(fileUrl)
    ensures !HasAcceptedExtension(u.filename) ==>
      Validate(UploadField(u), fileUrl, download, maxMb) == BadRequest(UploadTypeMessage)
  {
  }

  /** A URL outside the eight extensions is refused with the URL message, before anything is downloaded. */
  lemma UrlExtension(file: FileField, url: string, download: Download, maxMb: int)
    requires !FileGiven(file) && url != ""
    ensures !HasAcceptedExtension(url) ==>
      Validate(file, Some(url), download, maxMb) == BadRequest(UrlTypeMessage)
  {
  }

  /** The sizes an upload may have: not zero, and at most the limit; a file of exactly the limit passes. */
  lemma UploadSize(u: UploadedFile, fileUrl: Option<string>, download: Download, maxMb: int)
    requires !UrlGiven(fileUrl) && HasAcceptedExtension(u.filename)
    ensures u.size == 0 ==> Validate(UploadField(u), fileUrl, download, maxMb) == BadRequest(EmptyMessage)
    ensures u.size > 0 && u.size > SizeLimit(maxMb) ==>
      Validate(UploadField(u), fileUrl, download, maxMb) == BadRequest(TooLargeMessage(maxMb))
    ensures 0 < u.size <= SizeLimit(maxMb) ==>
      Validate(UploadField(u), fileUrl, download, maxMb) == Ok(Accepted(u.filename, u.size))
  {
  }

  /** A download passes exactly when its status is 200, it is a PDF or an image, and it fits; an empty body is not refused. */
  lemma DownloadChecks(file: FileField, url: string, download: Download, maxMb: int)
    requires !FileGiven(file) && url != "" && HasAcceptedExtension(url)
    ensures download.status != 200 ==>
      Validate(file, Some(url), download, maxMb) == BadRequest(DownloadMessage)
    ensures download.status == 200 && download.contentType.None? ==>
      Validate(file, Some(url), download, maxMb) == Err(Unhandled)
    ensures download.status == 200 && download.contentType.Some? && !IsPdfOrImageType(download.contentType.value) ==>
      Validate(file, Some(url), download, maxMb) == BadRequest(ContentTypeMessage)
    ensures download.status == 200 && download.contentType.Some? && IsPdfOrImageType(download.contentType.value) ==>
      Validate(file, Some(url), download, maxMb) == CheckSize(Accepted(Basename(url), download.size), maxMb)
  {
  }

  /** What an upload is checked on does not depend on what a download would have returned. */
  lemma UploadIgnoresDownload(u: UploadedFile, fileUrl: Option<string>, d1: Download, d2: Download, maxMb: int)
    requires !UrlGiven(fileUrl)
    ensures Validate(UploadField(u), fileUrl, d1, maxMb) == Validate(UploadField(u), fileUrl, d2, maxMb)
  {
  }

  /** The extension test ignores letter case: a name and its lower-cased form are judged alike. */
  lemma ExtensionIgnoresCase(name: string)
    ensures HasAcceptedExtension(name) == HasAcceptedExtension(Lower(name))
  {
    LowerIdempotent(name);
  }
}
