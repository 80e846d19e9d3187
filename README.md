# OCR endpoint request logic

A Dafny model of the decision logic of the `/ocr` endpoint (`ocr_pdf` in
`misc/main.py`). That endpoint is a web service that accepts a PDF or image,
runs `ocrmypdf` on it, and streams the searchable PDF back.

The model covers four parts:

- **Validation** (`Validation.dfy`). The input must be exactly one of an uploaded `file` and a `file_url`:
  - the name must end in one of eight extensions, compared case-insensitively;
  - an upload must not be empty;
  - a download must return status 200 and a PDF or image `Content-Type`;
  - the size must be at most `max_file_size_in_mb * 1024 * 1024` bytes.

  `Validate` runs the checks in the handler's order and returns the
  accepted file name and size, or the refusal. Every refusal is a 400 with the
  handler's own message. The model also states the same acceptance as one
  conjunction, `Admissible`, which was written separately from `Validate`.
- **The `ocrmypdf` command line** (`OcrArgs.dfy`):
  - `Params` holds the 29 query parameters;
  - `Emitted`/`ArgValue` form a table that says, option by option, whether a flag is passed and with what value;
  - `Flags`/`CommandLine` collect the table in the handler's fixed order.

  `BuildArgs` is the handler's imperative construction. It has 29 guarded appends, keeps Python truthiness and string comparison as written, and is proved equal to `CommandLine`. The lemmas beside it state, option by option, what the final list contains.
- **Reading the command line back** (`ArgsParse.dfy`). Splitting each word at its first `=` recovers every flag's name and value, and the vector splits into prefix, flags and the two paths.
- **The response** (`Handler.dfy`):
  - a 500 with `OCR failed: <stderr>` when the process exits non-zero or leaves no output file;
  - otherwise a streamed PDF whose `Content-Disposition` offers `ocr_<name>`.

  `Handle` composes the whole request and `Serve` is its step-by-step form.

`Text.dfy` models the Python string operations the handler uses: `lower`,
`startswith`, `endswith` with a tuple, `str` ordering, `f"{n}"` on an `int`,
and `os.path.basename`.

Value parameters are passed whenever their Python truthiness holds, not
only when they differ from their defaults. So a request that sets no parameter
still passes `--skip-text`, `--language=vie`, `--image-dpi=300` (unless the
file is a PDF), `--output-type=pdfa`, `--pdf-renderer=auto`, `--optimize=0`,
`--fast-web-view=1.0`, `--continue-on-soft-render-error`, `--verbose=1` and
`--jobs=<cpu count>`, in that order (`DefaultCommandWords`).

## Model

| member | source | states |
|---|---|---|
| `Validation.Validate` | misc/main.py:70-120 | Success holds exactly when `Admissible` holds, i.e. exactly one source is given, with an accepted extension, a non-empty upload or a 200 PDF/image download, and a size within the limit. The accepted name is the upload's name or the URL's basename, and the size is the upload's or the download's. An accepted name always has an accepted extension, the size never exceeds the limit, and every refusal carries status 400. |
| `Validation.PresenceChecks` | misc/main.py:70-73 | Neither source gives "File or file_url is required" and both give "Only one of file or file_url is allowed", whatever the rest of the request holds. |
| `Validation.UploadExtension` | misc/main.py:70-77 | With `file_url` absent or empty, an upload whose lower-cased name ends in none of the eight extensions is refused with "File must be a PDF or image". |
| `Validation.UrlExtension` | misc/main.py:70-95 | With `file` absent or an empty text, a URL that ends in none of the eight extensions, compared case-insensitively, is refused with "File url must be a PDF or image" before any download result is consulted. |
| `Validation.UploadSize` | misc/main.py:79-120 | With `file_url` absent or empty, an upload of size 0 gives "File is empty" (lines 79-82). One above the limit gives "File size must be less than N MB" (lines 117-120). Any size from 1 up to and including the limit is accepted. |
| `Validation.DownloadChecks` | misc/main.py:100-107 | With `file` absent or an empty text and an accepted URL, a non-200 status gives "Failed to download file from url". A missing `Content-Type` crashes. A type starting with neither `application/pdf` nor `image/` gives "File is not a PDF or image". Otherwise only the size check remains, and an empty body is not refused. |
| `Validation.UploadIgnoresDownload` | misc/main.py:70-91 | With `file_url` absent or empty, an upload's verdict does not depend on any download result. |
| `Validation.UrlNameKeepsExtension` | misc/main.py:94-97 | The basename of an accepted URL still ends in an accepted extension. |
| `Validation.ExtensionIgnoresCase` | misc/main.py:76 | A name and its lower-cased form are accepted or refused alike. |
| `OcrArgs.Defaults` | misc/main.py:38-66 | The declared defaults lie within the ranges the framework enforces. |
| `OcrArgs.DefaultCommandWords` | misc/main.py:38-184 | A request that sets no parameter passes `--skip-text --language=vie`, then `--image-dpi=300` unless the file is a PDF, then `--output-type=pdfa --pdf-renderer=auto --optimize=0 --fast-web-view=1.0 --continue-on-soft-render-error --verbose=1 --jobs=<cpu count>`, and nothing else. |
| `OcrArgs.BuildArgs` | misc/main.py:126-190 | The list built by the 29 guarded appends, the two paths and the prepended interpreter prefix equals `CommandLine`, which is prefix, rendered `Flags`, input path, output path. |
| `OcrArgs.AppendModeAndLanguage` | misc/main.py:127-134 | The mode, signature, language and image-dpi steps append exactly the table's flags of ranks 0-3. |
| `OcrArgs.AppendImageOptions` | misc/main.py:135-142 | The skip-big, oversample, rotate-pages and deskew steps append exactly the table's flags of ranks 4-7. |
| `OcrArgs.AppendCleaning` | misc/main.py:143-148 | The clean, clean-final and remove-vectors steps append exactly the table's flags of ranks 8-10. |
| `OcrArgs.AppendOutputOptions` | misc/main.py:149-154 | The output-type, pdf-renderer and optimize steps append exactly the table's flags of ranks 11-13. |
| `OcrArgs.AppendMetadata` | misc/main.py:155-162 | The title, author, keywords and subject steps append exactly the table's flags of ranks 14-17. |
| `OcrArgs.AppendLimits` | misc/main.py:163-170 | The pages and three float-parameter steps append exactly the table's flags of ranks 18-21. |
| `OcrArgs.AppendQuality` | misc/main.py:171-178 | The soft-render-error, verbose and two quality steps, the latter guarded by `optimize > '0'`, append exactly the table's flags of ranks 22-25. |
| `OcrArgs.AppendJbig2AndJobs` | misc/main.py:179-184 | The jbig2-lossy, jbig2-threshold and jobs steps append exactly the table's flags of ranks 26-28. |
| `OcrArgs.WordsRenderAll` | misc/main.py:126-184 | Appending slot by slot gives the rendering of the collected flag list. |
| `OcrArgs.FindFlags` | misc/main.py:126-184 | Looking up any option in the flag list gives exactly the table's entry for it: the flag with its value if emitted, nothing otherwise. |
| `OcrArgs.FindUpTo` | misc/main.py:126-184 | Among the first `n` positions, an option is found exactly when its rank is below `n`, and then as its table entry. |
| `OcrArgs.FlagsOrdered` | misc/main.py:126-184 | The flags appear in strictly increasing position of the fixed order, so no option occurs twice. |
| `OcrArgs.UpToRanked` | misc/main.py:126-184 | Every prefix of the construction is strictly ordered and holds only options of rank below its length. |
| `OcrArgs.UpToPrefix` | misc/main.py:126-184 | The flags collected up to an earlier position are a prefix of those collected later. |
| `OcrArgs.KeyAtRank` | misc/main.py:127-184 | Every emitted option occupies the position of its rank, and only the mode in effect can be emitted. |
| `OcrArgs.KeyAt` | misc/main.py:127-184 | The option at position `r` has rank `r`. |
| `OcrArgs.ModeFlag` | misc/main.py:127-128 | Mode `normal` yields no mode flag. Any other mode yields `--<mode>` as the very first flag, and no other mode's flag appears. |
| `OcrArgs.ImageDpiFlag` | misc/main.py:133-134 | Within the query ranges, `--image-dpi=<n>` is passed exactly when the lower-cased file name does not end in `.pdf`. |
| `OcrArgs.OptimizeFlags` | misc/main.py:153-178 | `--optimize=<level>` is always passed, level 0 included. At level 0 neither quality flag is passed, whatever its value. At levels 1-3 each quality flag is passed exactly when its value is non-zero. |
| `OcrArgs.OptimizeAboveZero` | misc/main.py:175-178 | Python's `optimize > '0'` on the four allowed strings holds exactly for levels 1-3. |
| `OcrArgs.SwitchFlags` | misc/main.py:129-130 | Each of the nine boolean parameters contributes its bare flag exactly when true. The same holds at lines 135-136, 139-148, 171-172 and 179-180. |
| `OcrArgs.TextFlags` | misc/main.py:155-164 | Each free-text parameter is passed as `--<name>=<text>` exactly when it is given and non-empty. |
| `OcrArgs.CountFlags` | misc/main.py:137-138 | Oversample, verbose, jbig2-threshold and jobs are passed as `--<name>=<n>` exactly when non-zero. The same holds at lines 173-174 and 181-184. |
| `OcrArgs.ChoiceFlags` | misc/main.py:131-132 | Language, output type and renderer are always passed, with their names. The same holds at lines 149-152. |
| `OcrArgs.FloatFlags` | misc/main.py:165-170 | The three float parameters are passed with their printed value exactly when non-zero, and `max_image_mpixels` only when it is given. |
| `OcrArgs.ChoiceNamesNonEmpty` | misc/main.py:127-154 | No choice name is empty, and the mode is named `normal` exactly in mode normal. |
| `OcrArgs.RenderAllAt` | misc/main.py:126-184 | The i-th word of the rendered list is the i-th flag rendered. |
| `OcrArgs.FindAppend` | misc/main.py:126-184 | Looking up an option in a concatenation finds it in the first part if it is there, else in the second. |
| `OcrArgs.Rank` | misc/main.py:127-184 | Every option has a position inside the 29-slot order. |
| `ArgsParse.CommandLineRoundTrip` | misc/main.py:126-190 | Reading back the handler's vector gives the interpreter, exactly the collected flags' names and values in order, then the input and output paths. |
| `ArgsParse.ParseRenderAll` | misc/main.py:126-184 | Reading back the rendered flags gives each flag's name and value, in order. |
| `ArgsParse.ParseRender` | misc/main.py:127-184 | `--name` reads back as a bare option and `--name=value` as name and value, the value kept whole even when it contains `=`. |
| `ArgsParse.KeyNameInjective` | misc/main.py:127-184 | Distinct options are written under distinct names, so each name read back identifies one option. |
| `ArgsParse.KeyNameHasNoEquals` | misc/main.py:127-184 | No option name written by the handler contains `=`. |
| `ArgsParse.FirstEqualsAfterName` | misc/main.py:131-184 | In `name=value`, with no `=` in the name, the first `=` ends the name. |
| `ArgsParse.FirstEquals` | misc/main.py:127-184 | The reader's split point, the inverse of the `--name=value` writes: the position found holds `=` and no earlier position does; when nothing is found, there is no `=` at all. |
| `ArgsParse.SettingsOf` | misc/main.py:127-184 | What the reader, the inverse of the writes, should recover: each flag's setting is its name and value, position by position. |
| `ArgsParse.ParseSettings` | misc/main.py:127-184 | The reader, the inverse of the writes: a successful read has one setting per word. |
| `Handler.Finish` | misc/main.py:194-205 | A PDF is streamed exactly when the exit code is 0 and the output exists, as `application/pdf`, with a disposition header naming `ocr_<name>`. Otherwise the answer is 500 with `OCR failed: <stderr>`. |
| `Handler.Serve` | misc/main.py:70-205 | The handler's steps validate, build the vector with `BuildArgs`, run it and answer, and they give exactly `Handle`. |
| `Handler.StreamsExactly` | misc/main.py:70-205 | A PDF is streamed exactly when the request is admissible and `ocrmypdf` succeeds on the vector built for it. |
| `Handler.StreamedName` | misc/main.py:204 | A streamed response offers `ocr_` followed by the upload's name or the URL's basename. |
| `Handler.RefusalIgnoresProcess` | misc/main.py:70-120 | A refused request never runs `ocrmypdf`: its answer is the refusal, whatever the process would report. |
| `Handler.OcrFailureAnswer` | misc/main.py:193-196 | An accepted request whose process fails is answered with 500 and the tool's standard error. |
| `Handler.ContentDisposition` | misc/main.py:204 | The header is `attachment; filename=ocr_` followed by the file name, unquoted, and the text after that prefix is exactly the name. |
| `Handler.Handle` | misc/main.py:70-205 | A streamed answer is a PDF and comes only from an accepted request. Every error response is a 400 or a 500. The framework's generic 500 comes exactly from a validation that crashed. |
| `Handler.OcrFailed` | misc/main.py:194 | The run failed when the exit code is non-zero or the output file is missing. |
| `Text.EndsWithAny` | misc/main.py:76 | `endswith` with a tuple holds exactly when one of the suffixes matches. |
| `Text.Lower` | misc/main.py:76 | Lower-casing keeps the length and maps each character on its own. |
| `Text.LowerIdempotent` | misc/main.py:76 | Lower-casing twice is lower-casing once. |
| `Text.LowerConcat` | misc/main.py:94 | Lower-casing distributes over concatenation. |
| `Text.Basename` | misc/main.py:97 | The basename is the longest suffix of the path that contains no `/`. |
| `Text.BasenameKeepsSuffix` | misc/main.py:97 | A suffix without `/` survives taking the basename. |
| `Text.LowerBasename` | misc/main.py:94-97 | Lower-casing commutes with taking the basename. |
| `Text.StrLessTrichotomy` | misc/main.py:175-178 | Python's `str` ordering is a strict total order. |
| `Text.NatToString` | misc/main.py:120 | The printed form of a natural number is a non-empty digit string without a leading zero. |
| `Text.NatToStringRoundTrip` | misc/main.py:120 | The digits printed for a natural number read back as that number. |
| `Text.IntToStringRoundTrip` | misc/main.py:120 | `f"{n}"` of any `int` reads back as `n`, so distinct limits and parameter values give distinct texts. |
| `Text.Digit` | misc/main.py:120 | The digit character for `d` is a digit whose value is `d`. |
| `Text.IntToString` | misc/main.py:120-138 | `f"{n}"` on an `int` is non-empty, starts with `-` exactly for a negative `n`, and is otherwise decimal digits. |
| `Text.StrLess` | misc/main.py:175-178 | Python's `optimize > '0'`: lexicographic comparison by code point, a proper prefix being smaller; nothing is less than itself. |
| `Text.StartsWith` | misc/main.py:105 | `startswith`: the first characters of the string are those of the prefix, one by one. |
| `Text.EndsWith` | misc/main.py:76-133 | `endswith` (lines 76, 94 and 133): the last characters of the string are those of the suffix, one by one. |

## Left out

- App and environment configuration at lines 12-30 and the `/` route at lines 32-34 are left out. `max_file_size_in_mb` is a field of `Host`.
- Temporary-file creation and writes are left out, because they are file-system effects. `input_path` and `output_path` are opaque strings in `Host`, and a download's size is taken from the fetched body rather than from `os.path.getsize`.
- The HTTP download is not performed. Its outcome is an input record of status, `Content-Type` and body size. Network exceptions from `requests.get` are not modelled.
- Running `ocrmypdf` is not modelled. The process is the function parameter `run`, from the argument vector to the exit code, the decoded standard error and the output's existence, and the streamed bytes are not modelled.
- `proc.stderr.decode()`: standard error is modelled as already decoded text; UTF-8 decode failures are not modelled.
- `str.lower` is modelled for ASCII letters only; Unicode case mapping is not modelled.
- The float parameters are carried as the text Python prints for them. A value's truthiness is modelled as that text not being `0.0` or `-0.0`, and float formatting itself is not modelled.
- The ranges that FastAPI's `Query(ge, le)` enforces, and `os.cpu_count()`, are not enforced by the handler. They are stated as the predicate `InRange` with the CPU count as a parameter, and only `ImageDpiFlag` assumes them.
- The framework's own request parsing is not modelled, and neither are `UploadFile.filename` or `UploadFile.size` being `None`. An upload always has a name and a size.
- `print` logging is not modelled.
- The `filename` parameter of `Content-Disposition` is written unquoted. A name containing `;`, `"` or a space (for instance the basename `a;b.pdf` of an accepted URL) is therefore not read back whole by an RFC 6266 parser; the model only states that the text after the fixed prefix is the name.
- The encoding of response headers is not modelled. Starlette encodes header values as latin-1, so a file name outside latin-1 makes the streamed response fail with a 500 after `ocrmypdf` has run; in the model every name gives a `Streamed` answer.
- An uncaught exception is modelled as the framework's generic 500 (`Unhandled`/`InternalServerError`), without its body. These exceptions are a `file` field that holds a non-empty text rather than an upload, and a download with no `Content-Type` header.
