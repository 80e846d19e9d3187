/**
 * The `/ocr` request from start to end: validation, the `ocrmypdf` command
 * line, the decision between a 500 and a streamed PDF, and the
 * `Content-Disposition` header of the streamed response.
 *
 * Running `ocrmypdf` is outside the model: `run` stands for it, as a function
 * from the argument vector to the process's exit code, its standard error
 * (already decoded) and whether it left an output file behind.
 */
module Handler {
  import opened Wrappers
  import opened Text
  import opened Validation
  import opened OcrArgs

  /** The query parameters and the two file fields of a request. */
  datatype Request = Request(params: Params, file: FileField, fileUrl: Option<string>)

  /** What the handler takes from its process: the size limit, the interpreter, and the two temporary paths. */
  datatype Host = Host(maxFileSizeMb: int, executable: string, inputPath: string, outputPath: string)

  /** What `subprocess.run` reports, with the existence of the output file. */
  datatype ProcessResult = ProcessResult(returnCode: int, stderr: string, outputExists: bool)

  /** A streamed PDF, an `HTTPException` turned into a response, or the framework's generic 500 for an uncaught exception. */
  datatype Response =
    | Streamed(mediaType: string, contentDisposition: string)
    | ErrorResponse(status: int, detail: string)
    | InternalServerError

  const DispositionPrefix := "attachment; filename=ocr_"

  /** The text after the fixed `attachment; filename=ocr_` prefix of a header, if it has that prefix. */
  function DispositionFileName(header: string): Option<string> {
    if StartsWith(header, DispositionPrefix) then Some(header[|DispositionPrefix|..]) else None
  }

  /**
   * The `Content-Disposition` header: `attachment; filename=ocr_` followed by
   * the input's name, unquoted; the text after that prefix is the name.
   */
  function ContentDisposition(fileName: string): (h: string)
    ensures DispositionFileName(h) == Some(fileName)
  {
    var h := DispositionPrefix + fileName;
    assert h[..|DispositionPrefix|] == DispositionPrefix;
    assert h[|DispositionPrefix|..] == fileName;
    h
  }

  /** `proc.returncode != 0 or not Path(output_path).exists()` */
  predicate OcrFailed(proc: ProcessResult) {
    proc.returnCode != 0 || !proc.outputExists
  }

  /** What the handler returns once `ocrmypdf` has run on the file called `fileName`. */
  function Finish(fileName: string, proc: ProcessResult): (r: Response)
    ensures r.Streamed? <==> !OcrFailed(proc)
    ensures r.Streamed? ==> r.mediaType == "application/pdf" && DispositionFileName(r.contentDisposition) == Some(fileName)
    ensures !r.Streamed? ==> r == ErrorResponse(500, "OCR failed: " + proc.stderr)
  {
    if OcrFailed(proc) then ErrorResponse(500, "OCR failed: " + proc.stderr)
    else
      Streamed("application/pdf", ContentDisposition(fileName))
  }

  /** The response to a refused or crashed validation. */
  function Refusal(f: Failure): Response {
    match f
    case Rejected(status, detail) => ErrorResponse(status, detail)
    case Unhandled => InternalServerError
  }

  /** The vector the handler would pass to `subprocess.run` for a file it accepted. */
  function ArgsFor(req: Request, host: Host, a: Accepted): seq<string> {
    CommandLine(req.params, a.fileName, host.executable, host.inputPath, host.outputPath)
  }

  /** The whole request: validate, and only then build the vector, run it and answer. */
  function Handle(req: Request, host: Host, download: Download, run: seq<string> -> ProcessResult): (r: Response)
    ensures r.Streamed? ==>
              Validate(req.file, req.fileUrl, download, host.maxFileSizeMb).Ok? && r.mediaType == "application/pdf"
    ensures r.ErrorResponse? ==> r.status == 400 || r.status == 500
    ensures r == InternalServerError <==> Validate(req.file, req.fileUrl, download, host.maxFileSizeMb) == Err(Unhandled)
  {
    match Validate(req.file, req.fileUrl, download, host.maxFileSizeMb)
    case Err(f) => Refusal(f)
    case Ok(a) => Finish(a.fileName, run(ArgsFor(req, host, a)))
  }

  /**
   * The handler's body as a sequence of steps: validation, the argument list
   * built flag by flag, the process, and the response.
   */
  method Serve(req: Request, host: Host, download: Download, run: seq<string> -> ProcessResult)
    returns (response: Response)
    ensures response == Handle(req, host, download, run)
  {
    var checked := Validate(req.file, req.fileUrl, download, host.maxFileSizeMb);
    if checked.Err? {
      return Refusal(checked.error);
    }
    var fileName := checked.value.fileName;
    var args := BuildArgs(req.params, fileName, host.executable, host.inputPath, host.outputPath);
    var proc := run(args);
    if OcrFailed(proc) {
      return ErrorResponse(500, "OCR failed: " + proc.stderr);
    }
    return Streamed("application/pdf", ContentDisposition(fileName));
  }

  /** A PDF is streamed back exactly when the input passes validation and `ocrmypdf` succeeds on it. */
  lemma StreamsExactly(req: Request, host: Host, download: Download, run: seq<string> -> ProcessResult)
    ensures var v := Validate(req.file, req.fileUrl, download, host.maxFileSizeMb);
      Handle(req, host, download, run).Streamed? <==>
        Admissible(req.file, req.fileUrl, download, host.maxFileSizeMb) &&
        !OcrFailed(run(ArgsFor(req, host, v.value)))
  {
  }

  /** The streamed file is offered as `ocr_` followed by the upload's name, or by the last segment of the URL. */
  lemma StreamedName(req: Request, host: Host, download: Download, run: seq<string> -> ProcessResult)
    ensures var r := Handle(req, host, download, run);
      r.Streamed? ==>
        DispositionFileName(r.contentDisposition) ==
        Some(if req.file.UploadField? then req.file.upload.filename else Basename(req.fileUrl.value))
  {
  }

  /** A refused request never starts `ocrmypdf`: its answer does not depend on what the process would do. */
  lemma RefusalIgnoresProcess(req: Request, host: Host, download: Download,
                              run1: seq<string> -> ProcessResult, run2: seq<string> -> ProcessResult)
    requires Validate(req.file, req.fileUrl, download, host.maxFileSizeMb).Err?
    ensures Handle(req, host, download, run1) == Handle(req, host, download, run2)
    ensures Handle(req, host, download, run1) ==
      Refusal(Validate(req.file, req.fileUrl, download, host.maxFileSizeMb).error)
  {
  }

  /** An accepted request whose OCR fails is answered with a 500 carrying the tool's standard error. */
  lemma OcrFailureAnswer(req: Request, host: Host, download: Download, run: seq<string> -> ProcessResult)
    requires Validate(req.file, req.fileUrl, download, host.maxFileSizeMb).Ok?
    ensures var proc := run(ArgsFor(req, host, Validate(req.file, req.fileUrl, download, host.maxFileSizeMb).value));
      OcrFailed(proc) ==> Handle(req, host, download, run) == ErrorResponse(500, "OCR failed: " + proc.stderr)
  {
  }
}
