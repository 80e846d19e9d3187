/**
 * How the `/ocr` handler turns its validated query parameters into the
 * `ocrmypdf` command line.
 *
 * The reference definition is a table: `Slot(p, name, r)` is the flag, if any, that
 * parameter record `p` puts in position `r` of the fixed flag order, and
 * `Flags` collects the occupied slots in order. `BuildArgs` is the handler's
 * step-by-step construction, with Python truthiness and `str` comparison as
 * written, proved equal to `CommandLine`.
 */
module OcrArgs {
  import opened Wrappers
  import opened Text

  datatype Mode = SkipText | Normal | ForceOcr | RedoOcr

  datatype Language = Vie | Eng | ChiSim | ChiTra | VieEng | VieChiSimChiTra | VieEngChiSimChiTra | Deu | Fra | Spa

  datatype OutputType = Pdfa | Pdf | Pdfa1 | Pdfa2 | Pdfa3 | NoConversion

  datatype PdfRenderer = Auto | Hocr | HocrDebug | Sandwich

  datatype Optimize = O0 | O1 | O2 | O3

  function ModeName(m: Mode): string {
    match m
    case SkipText => "skip-text"
    case Normal => "normal"
    case ForceOcr => "force-ocr"
    case RedoOcr => "redo-ocr"
  }

  function LanguageName(l: Language): string {
    match l
    case Vie => "vie"
    case Eng => "eng"
    case ChiSim => "chi_sim"
    case ChiTra => "chi_tra"
    case VieEng => "vie+eng"
    case VieChiSimChiTra => "vie+chi_sim+chi_tra"
    case VieEngChiSimChiTra => "vie+eng+chi_sim+chi_tra"
    case Deu => "deu"
    case Fra => "fra"
    case Spa => "spa"
  }

  function OutputTypeName(o: OutputType): string {
    match o
    case Pdfa => "pdfa"
    case Pdf => "pdf"
    case Pdfa1 => "pdfa-1"
    case Pdfa2 => "pdfa-2"
    case Pdfa3 => "pdfa-3"
    case NoConversion => "none"
  }

  function PdfRendererName(r: PdfRenderer): string {
    match r
    case Auto => "auto"
    case Hocr => "hocr"
    case HocrDebug => "hocrdebug"
    case Sandwich => "sandwich"
  }

  function OptimizeName(o: Optimize): string {
    match o
    case O0 => "0"
    case O1 => "1"
    case O2 => "2"
    case O3 => "3"
  }

  /** A float query parameter, carried as Python's `str(x)` of its value. */
  type FloatText = string

  /** Truthiness of a float given by its `str`: only zero (`0.0` or `-0.0`) is false. */
  predicate FloatTruthy(x: FloatText) {
    x != "0.0" && x != "-0.0"
  }

  /** Truthiness of an optional `str` parameter: `None` and `""` are false. */
  predicate TextTruthy(s: Option<string>) {
    s.Some? && s.value != ""
  }

  /** The handler's query parameters, one field per parameter, in declaration order. */
  datatype Params = Params(
    mode: Mode,
    invalidateDigitalSignatures: bool,
    language: Language,
    imageDpi: int,
    skipBig: bool,
    oversample: int,
    rotatePages: bool,
    deskew: bool,
    clean: bool,
    cleanFinal: bool,
    removeVectors: bool,
    outputType: OutputType,
    pdfRenderer: PdfRenderer,
    optimize: Optimize,
    title: Option<string>,
    author: Option<string>,
    keywords: Option<string>,
    subject: Option<string>,
    pages: Option<string>,
    maxImageMpixels: Option<FloatText>,
    rotatePagesThreshold: FloatText,
    fastWebView: FloatText,
    continueOnSoftRenderError: bool,
    verbose: int,
    jpegQuality: int,
    pngQuality: int,
    jbig2Lossy: bool,
    jbig2Threshold: int,
    jobs: int)

  /** The ranges the web framework enforces on the integer parameters before the handler runs. */
  predicate InRange(p: Params, cpuCount: int) {
    && 1 <= p.imageDpi <= 5000
    && 0 <= p.oversample <= 5000
    && 0 <= p.jpegQuality <= 100
    && 0 <= p.pngQuality <= 100
    && 0 <= p.jbig2Threshold <= 100
    && 1 <= p.jobs <= cpuCount
  }

  /** The parameters of a request that supplies none of them. */
  function Defaults(cpuCount: int): (p: Params)
    requires cpuCount >= 1
    ensures InRange(p, cpuCount)
  {
    Params(SkipText, false, Vie, 300, false, 0, false, false, false, false, false, Pdfa, Auto, O0,
           None, None, None, None, None, None, "0.0", "1.0", true, 1, 75, 75, false, 0, cpuCount)
  }

  /** The command-line options of `ocrmypdf` the handler can emit; a mode is an option of its own. */
  datatype Key =
    | ModeKey(m: Mode)
    | InvalidateDigitalSignatures
    | LanguageKey
    | ImageDpi
    | SkipBig
    | Oversample
    | RotatePages
    | Deskew
    | Clean
    | CleanFinal
    | RemoveVectors
    | OutputTypeKey
    | PdfRendererKey
    | OptimizeKey
    | Title
    | Author
    | Keywords
    | Subject
    | Pages
    | MaxImageMpixels
    | RotatePagesThreshold
    | FastWebView
    | ContinueOnSoftRenderError
    | Verbose
    | JpegQuality
    | PngQuality
    | Jbig2Lossy
    | Jbig2Threshold
    | Jobs

  /** The option's name as it is written after `--`. */
  function KeyName(k: Key): string {
    match k
    case ModeKey(m) => ModeName(m)
    case InvalidateDigitalSignatures => "invalidate-digital-signatures"
    case LanguageKey => "language"
    case ImageDpi => "image-dpi"
    case SkipBig => "skip-big"
    case Oversample => "oversample"
    case RotatePages => "rotate-pages"
    case Deskew => "deskew"
    case Clean => "clean"
    case CleanFinal => "clean-final"
    case RemoveVectors => "remove-vectors"
    case OutputTypeKey => "output-type"
    case PdfRendererKey => "pdf-renderer"
    case OptimizeKey => "optimize"
    case Title => "title"
    case Author => "author"
    case Keywords => "keywords"
    case Subject => "subject"
    case Pages => "pages"
    case MaxImageMpixels => "max-image-mpixels"
    case RotatePagesThreshold => "rotate-pages-threshold"
    case FastWebView => "fast-web-view"
    case ContinueOnSoftRenderError => "continue-on-soft-render-error"
    case Verbose => "verbose"
    case JpegQuality => "jpeg-quality"
    case PngQuality => "png-quality"
    case Jbig2Lossy => "jbig2-lossy"
    case Jbig2Threshold => "jbig2-threshold"
    case Jobs => "jobs"
  }

  const SlotCount: nat := 29

  /** The position of an option in the handler's fixed flag order. */
  function Rank(k: Key): (r: nat)
    ensures r < SlotCount
  {
    match k
    case ModeKey(_) => 0
    case InvalidateDigitalSignatures => 1
    case LanguageKey => 2
    case ImageDpi => 3
    case SkipBig => 4
    case Oversample => 5
    case RotatePages => 6
    case Deskew => 7
    case Clean => 8
    case CleanFinal => 9
    case RemoveVectors => 10
    case OutputTypeKey => 11
    case PdfRendererKey => 12
    case OptimizeKey => 13
    case Title => 14
    case Author => 15
    case Keywords => 16
    case Subject => 17
    case Pages => 18
    case MaxImageMpixels => 19
    case RotatePagesThreshold => 20
    case FastWebView => 21
    case ContinueOnSoftRenderError => 22
    case Verbose => 23
    case JpegQuality => 24
    case PngQuality => 25
    case Jbig2Lossy => 26
    case Jbig2Threshold => 27
    case Jobs => 28
  }

  /** One command-line flag: a bare `--key`, or `--key=value`. */
  datatype Flag = Flag(key: Key, value: Option<string>)

  /** `f"--{name}={value}"` */
  function LongOption(name: string, value: string): string {
    "--" + name + "=" + value
  }

  /** `f"--{name}"` */
  function BareOption(name: string): string {
    "--" + name
  }

  function Render(f: Flag): string {
    if f.value.Some? then LongOption(KeyName(f.key), f.value.value) else BareOption(KeyName(f.key))
  }

  /** The flags as command-line words, one word per flag. */
  function RenderAll(fs: seq<Flag>): (r: seq<string>)
    ensures |r| == |fs|
  {
    if fs == [] then [] else RenderAll(fs[..|fs| - 1]) + [Render(fs[|fs| - 1])]
  }

  lemma {:induction false} RenderAllAt(fs: seq<Flag>, i: nat)
    requires i < |fs|
    ensures RenderAll(fs)[i] == Render(fs[i])
  {
    if i < |fs| - 1 {
      RenderAllAt(fs[..|fs| - 1], i);
    }
  }

  function Bare(k: Key): Flag {
    Flag(k, None)
  }

  function Valued(k: Key, v: string): Flag {
    Flag(k, Some(v))
  }

  /** The option at position `r` of the fixed order, when the mode in effect is `m`. */
  function KeyAt(m: Mode, r: nat): (k: Key)
    requires r < SlotCount
    ensures Rank(k) == r
  {
    if r == 0 then ModeKey(m)
    else if r == 1 then InvalidateDigitalSignatures
    else if r == 2 then LanguageKey
    else if r == 3 then ImageDpi
    else if r == 4 then SkipBig
    else if r == 5 then Oversample
    else if r == 6 then RotatePages
    else if r == 7 then Deskew
    else if r == 8 then Clean
    else if r == 9 then CleanFinal
    else if r == 10 then RemoveVectors
    else if r == 11 then OutputTypeKey
    else if r == 12 then PdfRendererKey
    else if r == 13 then OptimizeKey
    else if r == 14 then Title
    else if r == 15 then Author
    else if r == 16 then Keywords
    else if r == 17 then Subject
    else if r == 18 then Pages
    else if r == 19 then MaxImageMpixels
    else if r == 20 then RotatePagesThreshold
    else if r == 21 then FastWebView
    else if r == 22 then ContinueOnSoftRenderError
    else if r == 23 then Verbose
    else if r == 24 then JpegQuality
    else if r == 25 then PngQuality
    else if r == 26 then Jbig2Lossy
    else if r == 27 then Jbig2Threshold
    else Jobs
  }

  /** The optional `str` parameter held by a free-text option, if `k` is one. */
  function TextParam(p: Params, k: Key): Option<Option<string>> {
    match k
    case Title => Some(p.title)
    case Author => Some(p.author)
    case Keywords => Some(p.keywords)
    case Subject => Some(p.subject)
    case Pages => Some(p.pages)
    case _ => None
  }

  /** The boolean parameter switched by a bare option, if `k` is one. */
  function Switch(p: Params, k: Key): Option<bool> {
    match k
    case InvalidateDigitalSignatures => Some(p.invalidateDigitalSignatures)
    case SkipBig => Some(p.skipBig)
    case RotatePages => Some(p.rotatePages)
    case Deskew => Some(p.deskew)
    case Clean => Some(p.clean)
    case CleanFinal => Some(p.cleanFinal)
    case RemoveVectors => Some(p.removeVectors)
    case ContinueOnSoftRenderError => Some(p.continueOnSoftRenderError)
    case Jbig2Lossy => Some(p.jbig2Lossy)
    case _ => None
  }

  /** The integer parameter of an option emitted whenever that integer is non-zero, if `k` is one. */
  function Count(p: Params, k: Key): Option<int> {
    match k
    case Oversample => Some(p.oversample)
    case Verbose => Some(p.verbose)
    case Jbig2Threshold => Some(p.jbig2Threshold)
    case Jobs => Some(p.jobs)
    case _ => None
  }

  /** True when the file name, lower-cased, ends in `.pdf`. */
  predicate IsPdfName(fileName: string) {
    EndsWith(Lower(fileName), ".pdf")
  }

  /**
   * The flag table, first column: whether option `k` is passed for
   * parameters `p` and input file name `fileName`.
   */
  predicate Emitted(p: Params, fileName: string, k: Key) {
    match k
    case ModeKey(m) => m == p.mode && m != Normal
    case LanguageKey => true
    case ImageDpi => !IsPdfName(fileName) && p.imageDpi != 0
    case OutputTypeKey => true
    case PdfRendererKey => true
    case OptimizeKey => true
    case MaxImageMpixels => p.maxImageMpixels.Some? && FloatTruthy(p.maxImageMpixels.value)
    case RotatePagesThreshold => FloatTruthy(p.rotatePagesThreshold)
    case FastWebView => FloatTruthy(p.fastWebView)
    case JpegQuality => p.optimize != O0 && p.jpegQuality != 0
    case PngQuality => p.optimize != O0 && p.pngQuality != 0
    case _ =>
      if Switch(p, k).Some? then Switch(p, k).value
      else if TextParam(p, k).Some? then TextTruthy(TextParam(p, k).value)
      else Count(p, k).Some? && Count(p, k).value != 0
  }

  /** The flag table, second column: the text after `=`, or `None` for a bare option. */
  function ArgValue(p: Params, k: Key): Option<string> {
    match k
    case LanguageKey => Some(LanguageName(p.language))
    case ImageDpi => Some(IntToString(p.imageDpi))
    case OutputTypeKey => Some(OutputTypeName(p.outputType))
    case PdfRendererKey => Some(PdfRendererName(p.pdfRenderer))
    case OptimizeKey => Some(OptimizeName(p.optimize))
    case MaxImageMpixels => p.maxImageMpixels
    case RotatePagesThreshold => Some(p.rotatePagesThreshold)
    case FastWebView => Some(p.fastWebView)
    case JpegQuality => Some(IntToString(p.jpegQuality))
    case PngQuality => Some(IntToString(p.pngQuality))
    case _ =>
      if TextParam(p, k).Some? then TextParam(p, k).value
      else if Count(p, k).Some? then Some(IntToString(Count(p, k).value))
      else None
  }

  /** The table's entry for option `k`: its flag if it is passed, else nothing. */
  function Entry(p: Params, fileName: string, k: Key): Option<Flag> {
    if Emitted(p, fileName, k) then Some(Flag(k, ArgValue(p, k))) else None
  }

  /** What occupies position `r` of the fixed order. */
  function Slot(p: Params, fileName: string, r: nat): Option<Flag>
    requires r < SlotCount
  {
    Entry(p, fileName, KeyAt(p.mode, r))
  }

  /** Only the mode in effect can be emitted, and every emitted option sits in its own slot. */
  lemma KeyAtRank(p: Params, fileName: string, k: Key)
    requires Emitted(p, fileName, k)
    ensures KeyAt(p.mode, Rank(k)) == k
  {
  }

  function Occupant(o: Option<Flag>): seq<Flag> {
    if o.Some? then [o.value] else []
  }

  /** The occupied slots of rank below `n`, in rank order. */
  function FlagsUpTo(p: Params, fileName: string, n: nat): seq<Flag>
    requires n <= SlotCount
  {
    if n == 0 then [] else FlagsUpTo(p, fileName, n - 1) + Occupant(Slot(p, fileName, n - 1))
  }

  /** The flags the handler passes to `ocrmypdf`, in order. */
  function Flags(p: Params, fileName: string): seq<Flag> {
    FlagsUpTo(p, fileName, SlotCount)
  }

  /** The whole argument vector: interpreter prefix, flags, then the input and output paths. */
  function CommandLine(p: Params, fileName: string, executable: string, inputPath: string, outputPath: string): seq<string> {
    [executable, "-u", "-m", "ocrmypdf"] + RenderAll(Flags(p, fileName)) + [inputPath, outputPath]
  }

  /** The first flag with option `k`, if there is one. */
  function Find(fs: seq<Flag>, k: Key): (r: Option<Flag>)
    ensures r.Some? ==> r.value in fs && r.value.key == k
    ensures r.None? ==> forall i :: 0 <= i < |fs| ==> fs[i].key != k
  {
    if fs == [] then None
    else if fs[0].key == k then Some(fs[0])
    else
      var rest := Find(fs[1..], k);
      assert forall i :: 1 <= i < |fs| ==> fs[i] == fs[1..][i - 1];
      rest
  }

  lemma {:induction false} FindAppend(a: seq<Flag>, b: seq<Flag>, k: Key)
    ensures Find(a + b, k) == if Find(a, k).Some? then Find(a, k) else Find(b, k)
  {
    if a != [] {
      assert (a + b)[1..] == a[1..] + b;
      FindAppend(a[1..], b, k);
    } else {
      assert a + b == b;
    }
  }

  lemma FindOccupant(o: Option<Flag>, k: Key)
    ensures Find(Occupant(o), k) == if o.Some? && o.value.key == k then o else None
  {
  }

  /** Looking up past one more slot that holds option `key`, if anything. */
  lemma FindStep(prev: seq<Flag>, slot: Option<Flag>, key: Key, k: Key)
    requires slot.Some? ==> slot.value.key == key
    ensures Find(prev + Occupant(slot), k) ==
      if Find(prev, k).Some? then Find(prev, k) else if key == k then slot else None
  {
    FindAppend(prev, Occupant(slot), k);
    FindOccupant(slot, k);
  }

  lemma {:induction false} FindUpTo(p: Params, fileName: string, n: nat, k: Key)
    requires n <= SlotCount
    ensures Find(FlagsUpTo(p, fileName, n), k) == if Rank(k) < n then Entry(p, fileName, k) else None
  {
    if n > 0 {
      var key := KeyAt(p.mode, n - 1);
      var slot := Slot(p, fileName, n - 1);
      assert slot == Entry(p, fileName, key);
      FindUpTo(p, fileName, n - 1, k);
      FindStep(FlagsUpTo(p, fileName, n - 1), slot, key, k);
      if key != k && Rank(k) == n - 1 && Emitted(p, fileName, k) {
        KeyAtRank(p, fileName, k);
        assert false;
      }
    }
  }

  /** Looking an option up in the flag list gives exactly the table's entry for it. */
  lemma FindFlags(p: Params, fileName: string, k: Key)
    ensures Find(Flags(p, fileName), k) == Entry(p, fileName, k)
  {
    FindUpTo(p, fileName, SlotCount, k);
  }

  predicate StrictlyRanked(fs: seq<Flag>) {
    forall i, j :: 0 <= i < j < |fs| ==> Rank(fs[i].key) < Rank(fs[j].key)
  }

  lemma {:induction false} UpToRanked(p: Params, fileName: string, n: nat)
    requires n <= SlotCount
    ensures StrictlyRanked(FlagsUpTo(p, fileName, n))
    ensures forall i :: 0 <= i < |FlagsUpTo(p, fileName, n)| ==> Rank(FlagsUpTo(p, fileName, n)[i].key) < n
  {
    if n > 0 {
      UpToRanked(p, fileName, n - 1);
    }
  }

  /** The flags come in the fixed order, so no option is given twice. */
  lemma FlagsOrdered(p: Params, fileName: string)
    ensures StrictlyRanked(Flags(p, fileName))
  {
    UpToRanked(p, fileName, SlotCount);
  }

  lemma {:induction false} UpToPrefix(p: Params, fileName: string, m: nat, n: nat)
    requires m <= n <= SlotCount
    ensures |FlagsUpTo(p, fileName, m)| <= |FlagsUpTo(p, fileName, n)|
    ensures FlagsUpTo(p, fileName, n)[..|FlagsUpTo(p, fileName, m)|] == FlagsUpTo(p, fileName, m)
  {
    if m < n {
      UpToPrefix(p, fileName, m, n - 1);
    }
  }

  /** `--normal` is never passed; any other mode is passed as `--<mode>`, first of all flags. */
  lemma ModeFlag(p: Params, fileName: string)
    ensures p.mode == Normal ==> forall m :: Find(Flags(p, fileName), ModeKey(m)) == None
    ensures p.mode != Normal ==>
      && |Flags(p, fileName)| > 0
      && Flags(p, fileName)[0] == Bare(ModeKey(p.mode))
      && forall m :: m != p.mode ==> Find(Flags(p, fileName), ModeKey(m)) == None
  {
    forall m {
      FindFlags(p, fileName, ModeKey(m));
    }
    if p.mode != Normal {
      UpToPrefix(p, fileName, 1, SlotCount);
      assert FlagsUpTo(p, fileName, 1) == [Bare(ModeKey(p.mode))];
    }
  }

  /** `--image-dpi` is passed exactly when the input's name, lower-cased, does not end in `.pdf`. */
  lemma ImageDpiFlag(p: Params, fileName: string, cpuCount: int)
    requires InRange(p, cpuCount)
    ensures Find(Flags(p, fileName), ImageDpi) ==
      if IsPdfName(fileName) then None else Some(Valued(ImageDpi, IntToString(p.imageDpi)))
  {
    FindFlags(p, fileName, ImageDpi);
  }

  /**
   * `--optimize=<level>` is always passed, `--optimize=0` included; the two
   * quality flags are passed only at a level above 0, and then each exactly
   * when its value is non-zero.
   */
  lemma OptimizeFlags(p: Params, fileName: string)
    ensures Find(Flags(p, fileName), OptimizeKey) == Some(Valued(OptimizeKey, OptimizeName(p.optimize)))
    ensures Find(Flags(p, fileName), JpegQuality) ==
      if p.optimize != O0 && p.jpegQuality != 0 then Some(Valued(JpegQuality, IntToString(p.jpegQuality))) else None
    ensures Find(Flags(p, fileName), PngQuality) ==
      if p.optimize != O0 && p.pngQuality != 0 then Some(Valued(PngQuality, IntToString(p.pngQuality))) else None
    ensures p.optimize == O0 ==>
      Find(Flags(p, fileName), JpegQuality) == None && Find(Flags(p, fileName), PngQuality) == None
  {
    FindFlags(p, fileName, OptimizeKey);
    FindFlags(p, fileName, JpegQuality);
    FindFlags(p, fileName, PngQuality);
  }

  /** Each boolean parameter contributes its bare flag exactly when it is true. */
  lemma SwitchFlags(p: Params, fileName: string, k: Key)
    requires Switch(p, k).Some?
    ensures Find(Flags(p, fileName), k) == if Switch(p, k).value then Some(Bare(k)) else None
  {
    FindFlags(p, fileName, k);
  }

  /** Each free-text parameter is passed as `--<key>=<text>` exactly when it is given and not empty. */
  lemma TextFlags(p: Params, fileName: string, k: Key)
    requires TextParam(p, k).Some?
    ensures Find(Flags(p, fileName), k) ==
      if TextTruthy(TextParam(p, k).value) then Some(Valued(k, TextParam(p, k).value.value)) else None
  {
    FindFlags(p, fileName, k);
  }

  /** The plain integer parameters are passed as `--<key>=<n>` exactly when they are non-zero. */
  lemma CountFlags(p: Params, fileName: string, k: Key)
    requires Count(p, k).Some?
    ensures Find(Flags(p, fileName), k) ==
      if Count(p, k).value != 0 then Some(Valued(k, IntToString(Count(p, k).value))) else None
  {
    FindFlags(p, fileName, k);
  }

  /** Language, output type and renderer have no falsy value, so they are always passed. */
  lemma ChoiceFlags(p: Params, fileName: string)
    ensures Find(Flags(p, fileName), LanguageKey) == Some(Valued(LanguageKey, LanguageName(p.language)))
    ensures Find(Flags(p, fileName), OutputTypeKey) == Some(Valued(OutputTypeKey, OutputTypeName(p.outputType)))
    ensures Find(Flags(p, fileName), PdfRendererKey) == Some(Valued(PdfRendererKey, PdfRendererName(p.pdfRenderer)))
  {
    FindFlags(p, fileName, LanguageKey);
    FindFlags(p, fileName, OutputTypeKey);
    FindFlags(p, fileName, PdfRendererKey);
  }

  /** The float parameters are passed with their printed value exactly when they are non-zero. */
  lemma FloatFlags(p: Params, fileName: string)
    ensures Find(Flags(p, fileName), MaxImageMpixels) ==
      if p.maxImageMpixels.Some? && FloatTruthy(p.maxImageMpixels.value)
      then Some(Valued(MaxImageMpixels, p.maxImageMpixels.value)) else None
    ensures Find(Flags(p, fileName), RotatePagesThreshold) ==
      if FloatTruthy(p.rotatePagesThreshold) then Some(Valued(RotatePagesThreshold, p.rotatePagesThreshold)) else None
    ensures Find(Flags(p, fileName), FastWebView) ==
      if FloatTruthy(p.fastWebView) then Some(Valued(FastWebView, p.fastWebView)) else None
  {
    FindFlags(p, fileName, MaxImageMpixels);
    FindFlags(p, fileName, RotatePagesThreshold);
    FindFlags(p, fileName, FastWebView);
  }

  /** Python's `optimize > '0'` on the four allowed strings holds exactly above level 0. */
  lemma OptimizeAboveZero(o: Optimize)
    ensures StrLess("0", OptimizeName(o)) <==> o != O0
  {
  }

  /** The string-valued choices are never empty, so their truthiness tests always pass. */
  lemma ChoiceNamesNonEmpty(p: Params)
    ensures ModeName(p.mode) != "" && (ModeName(p.mode) == "normal" <==> p.mode == Normal)
    ensures LanguageName(p.language) != ""
    ensures OutputTypeName(p.outputType) != ""
    ensures PdfRendererName(p.pdfRenderer) != ""
    ensures OptimizeName(p.optimize) != ""
  {
  }

  /** The words that slot `r` contributes: its rendered flag, or nothing. */
  function SlotWords(o: Option<Flag>): seq<string> {
    if o.Some? then [Render(o.value)] else []
  }

  /**
   * The rendered flags of the slots of rank below `n`, in order: the same
   * words as `RenderAll(FlagsUpTo(p, fileName, n))` (`WordsRenderAll`), but
   * unfolded one slot at a time, so that each append step of `BuildArgs` can
   * state what it has added.
   */
  function Words(p: Params, fileName: string, n: nat): seq<string>
    requires n <= SlotCount
  {
    if n == 0 then [] else Words(p, fileName, n - 1) + SlotWords(Slot(p, fileName, n - 1))
  }

  /** Rendering slot by slot gives the rendering of the collected flags. */
  lemma {:induction false} WordsRenderAll(p: Params, fileName: string, n: nat)
    requires n <= SlotCount
    ensures Words(p, fileName, n) == RenderAll(FlagsUpTo(p, fileName, n))
  {
    if n > 0 {
      WordsRenderAll(p, fileName, n - 1);
      var prev := FlagsUpTo(p, fileName, n - 1);
      var o := Slot(p, fileName, n - 1);
      assert FlagsUpTo(p, fileName, n) == prev + Occupant(o);
      if o.Some? {
        assert (prev + [o.value])[..|prev|] == prev;
      } else {
        assert prev + Occupant(o) == prev;
      }
    }
  }

  /** The handler's tests and appends for the processing mode, signature invalidation, the language and the image resolution, in order. */
  method AppendModeAndLanguage(p: Params, fileName: string, before: seq<string>) returns (args: seq<string>)
    requires before == Words(p, fileName, 0)
    ensures args == Words(p, fileName, 4)
  {
    ChoiceNamesNonEmpty(p);
    args := before;
    var mode := ModeName(p.mode);
    if mode != "" && mode != "normal" {
      args := args + [BareOption(mode)];
    }
    assert args == Words(p, fileName, 1);
    if p.invalidateDigitalSignatures {
      args := args + [BareOption("invalidate-digital-signatures")];
    }
    var language := LanguageName(p.language);
    assert args == Words(p, fileName, 2);
    if language != "" {
      args := args + [LongOption("language", language)];
    }
    assert args == Words(p, fileName, 3);
    if !EndsWith(Lower(fileName), ".pdf") && p.imageDpi != 0 {
      args := args + [LongOption("image-dpi", IntToString(p.imageDpi))];
    }
  }

  /** The handler's tests and appends for skipping big images, oversampling, page rotation and deskewing, in order. */
  method AppendImageOptions(p: Params, fileName: string, before: seq<string>) returns (args: seq<string>)
    requires before == Words(p, fileName, 4)
    ensures args == Words(p, fileName, 8)
  {
    args := before;
    if p.skipBig {
      args := args + [BareOption("skip-big")];
    }
    assert args == Words(p, fileName, 5);
    if p.oversample != 0 {
      args := args + [LongOption("oversample", IntToString(p.oversample))];
    }
    assert args == Words(p, fileName, 6);
    if p.rotatePages {
      args := args + [BareOption("rotate-pages")];
    }
    assert args == Words(p, fileName, 7);
    if p.deskew {
      args := args + [BareOption("deskew")];
    }
  }

  /** The handler's tests and appends for the cleaning switches and vector removal, in order. */
  method AppendCleaning(p: Params, fileName: string, before: seq<string>) returns (args: seq<string>)
    requires before == Words(p, fileName, 8)
    ensures args == Words(p, fileName, 11)
  {
    args := before;
    if p.clean {
      args := args + [BareOption("clean")];
    }
    assert args == Words(p, fileName, 9);
    if p.cleanFinal {
      args := args + [BareOption("clean-final")];
    }
    assert args == Words(p, fileName, 10);
    if p.removeVectors {
      args := args + [BareOption("remove-vectors")];
    }
  }

  /** The handler's tests and appends for the output type, the renderer and the optimisation level, in order. */
  method AppendOutputOptions(p: Params, fileName: string, before: seq<string>) returns (args: seq<string>)
    requires before == Words(p, fileName, 11)
    ensures args == Words(p, fileName, 14)
  {
    ChoiceNamesNonEmpty(p);
    args := before;
    var outputType := OutputTypeName(p.outputType);
    if outputType != "" {
      args := args + [LongOption("output-type", outputType)];
    }
    var renderer := PdfRendererName(p.pdfRenderer);
    assert args == Words(p, fileName, 12);
    if renderer != "" {
      args := args + [LongOption("pdf-renderer", renderer)];
    }
    var optimize := OptimizeName(p.optimize);
    assert args == Words(p, fileName, 13);
    if optimize != "" {
      args := args + [LongOption("optimize", optimize)];
    }
  }

  /** The handler's tests and appends for the document title, author, keywords and subject, in order. */
  method AppendMetadata(p: Params, fileName: string, before: seq<string>) returns (args: seq<string>)
    requires before == Words(p, fileName, 14)
    ensures args == Words(p, fileName, 18)
  {
    args := before;
    if p.title.Some? && p.title.value != "" {
      args := args + [LongOption("title", p.title.value)];
    }
    assert args == Words(p, fileName, 15);
    if p.author.Some? && p.author.value != "" {
      args := args + [LongOption("author", p.author.value)];
    }
    assert args == Words(p, fileName, 16);
    if p.keywords.Some? && p.keywords.value != "" {
      args := args + [LongOption("keywords", p.keywords.value)];
    }
    assert args == Words(p, fileName, 17);
    if p.subject.Some? && p.subject.value != "" {
      args := args + [LongOption("subject", p.subject.value)];
    }
  }

  /** The handler's tests and appends for the page selection, the image size limit, the rotation threshold and the fast web view threshold, in order. */
  method AppendLimits(p: Params, fileName: string, before: seq<string>) returns (args: seq<string>)
    requires before == Words(p, fileName, 18)
    ensures args == Words(p, fileName, 22)
  {
    args := before;
    if p.pages.Some? && p.pages.value != "" {
      args := args + [LongOption("pages", p.pages.value)];
    }
    assert args == Words(p, fileName, 19);
    if p.maxImageMpixels.Some? && FloatTruthy(p.maxImageMpixels.value) {
      args := args + [LongOption("max-image-mpixels", p.maxImageMpixels.value)];
    }
    assert args == Words(p, fileName, 20);
    if FloatTruthy(p.rotatePagesThreshold) {
      args := args + [LongOption("rotate-pages-threshold", p.rotatePagesThreshold)];
    }
    assert args == Words(p, fileName, 21);
    if FloatTruthy(p.fastWebView) {
      args := args + [LongOption("fast-web-view", p.fastWebView)];
    }
  }

  /** The handler's tests and appends for soft render errors, verbosity and the JPEG and PNG quality, in order. */
  method AppendQuality(p: Params, fileName: string, before: seq<string>) returns (args: seq<string>)
    requires before == Words(p, fileName, 22)
    ensures args == Words(p, fileName, 26)
  {
    OptimizeAboveZero(p.optimize);
    var optimize := OptimizeName(p.optimize);
    args := before;
    if p.continueOnSoftRenderError {
      args := args + [BareOption("continue-on-soft-render-error")];
    }
    assert args == Words(p, fileName, 23);
    if p.verbose != 0 {
      args := args + [LongOption("verbose", IntToString(p.verbose))];
    }
    assert args == Words(p, fileName, 24);
    if StrLess("0", optimize) && p.jpegQuality != 0 {
      args := args + [LongOption("jpeg-quality", IntToString(p.jpegQuality))];
    }
    assert args == Words(p, fileName, 25);
    if StrLess("0", optimize) && p.pngQuality != 0 {
      args := args + [LongOption("png-quality", IntToString(p.pngQuality))];
    }
  }

  /** The handler's tests and appends for lossy JBIG2, the JBIG2 threshold and the job count, in order. */
  method AppendJbig2AndJobs(p: Params, fileName: string, before: seq<string>) returns (args: seq<string>)
    requires before == Words(p, fileName, 26)
    ensures args == Words(p, fileName, 29)
  {
    args := before;
    if p.jbig2Lossy {
      args := args + [BareOption("jbig2-lossy")];
    }
    assert args == Words(p, fileName, 27);
    if p.jbig2Threshold != 0 {
      args := args + [LongOption("jbig2-threshold", IntToString(p.jbig2Threshold))];
    }
    assert args == Words(p, fileName, 28);
    if p.jobs != 0 {
      args := args + [LongOption("jobs", IntToString(p.jobs))];
    }
  }

  /**
   * The argument list, as the handler builds it: start empty, append each
   * flag whose guard is truthy, append the two paths, then prepend the
   * interpreter prefix.
   */
  method BuildArgs(p: Params, fileName: string, executable: string, inputPath: string, outputPath: string)
    returns (args: seq<string>)
    ensures args == CommandLine(p, fileName, executable, inputPath, outputPath)
  {
    args := AppendModeAndLanguage(p, fileName, []);
    args := AppendImageOptions(p, fileName, args);
    args := AppendCleaning(p, fileName, args);
    args := AppendOutputOptions(p, fileName, args);
    args := AppendMetadata(p, fileName, args);
    args := AppendLimits(p, fileName, args);
    args := AppendQuality(p, fileName, args);
    args := AppendJbig2AndJobs(p, fileName, args);
    WordsRenderAll(p, fileName, SlotCount);
    args := args + [inputPath];
    args := args + [outputPath];
    args := [executable, "-u", "-m", "ocrmypdf"] + args;
  }

  /** The image-dpi word of a request at the defaults: passed unless the file is a PDF. */
  function DefaultImageDpi(fileName: string): seq<string> {
    if IsPdfName(fileName) then [] else [LongOption("image-dpi", "300")]
  }

  /**
   * The words of a request that sets no parameter, slot range by slot range
   * (one lemma per range keeps each unfolding of `Words` small).
   */
  lemma {:induction false} DefaultWords4(cpuCount: int, fileName: string)
    requires cpuCount >= 1
    ensures Words(Defaults(cpuCount), fileName, 4) ==
      [BareOption("skip-text"), LongOption("language", "vie")] + DefaultImageDpi(fileName)
  {
    var p := Defaults(cpuCount);
    assert IntToString(300) == "300";
    assert Words(p, fileName, 1) == Words(p, fileName, 0) + [BareOption("skip-text")];
    assert Words(p, fileName, 2) == Words(p, fileName, 1);
    assert Words(p, fileName, 3) == Words(p, fileName, 2) + [LongOption("language", "vie")];
  }

  lemma {:induction false} DefaultWords8(cpuCount: int, fileName: string)
    requires cpuCount >= 1
    ensures Words(Defaults(cpuCount), fileName, 8) ==
      [BareOption("skip-text"), LongOption("language", "vie")] + DefaultImageDpi(fileName)
  {
    var p := Defaults(cpuCount);
    DefaultWords4(cpuCount, fileName);
    assert Words(p, fileName, 5) == Words(p, fileName, 4);
    assert Words(p, fileName, 6) == Words(p, fileName, 5);
    assert Words(p, fileName, 7) == Words(p, fileName, 6);
  }

  lemma {:induction false} DefaultWords12(cpuCount: int, fileName: string)
    requires cpuCount >= 1
    ensures Words(Defaults(cpuCount), fileName, 12) ==
      [BareOption("skip-text"), LongOption("language", "vie")] +
      DefaultImageDpi(fileName) +
      [LongOption("output-type", "pdfa")]
  {
    var p := Defaults(cpuCount);
    DefaultWords8(cpuCount, fileName);
    assert Words(p, fileName, 9) == Words(p, fileName, 8);
    assert Words(p, fileName, 10) == Words(p, fileName, 9);
    assert Words(p, fileName, 11) == Words(p, fileName, 10);
  }

  lemma {:induction false} DefaultWords15(cpuCount: int, fileName: string)
    requires cpuCount >= 1
    ensures Words(Defaults(cpuCount), fileName, 15) ==
      [BareOption("skip-text"), LongOption("language", "vie")] +
      DefaultImageDpi(fileName) +
      [LongOption("output-type", "pdfa"), LongOption("pdf-renderer", "auto"),
       LongOption("optimize", "0")]
  {
    var p := Defaults(cpuCount);
    DefaultWords12(cpuCount, fileName);
    assert Words(p, fileName, 13) == Words(p, fileName, 12) + [LongOption("pdf-renderer", "auto")];
    assert Words(p, fileName, 14) == Words(p, fileName, 13) + [LongOption("optimize", "0")];
  }

  lemma {:induction false} DefaultWords19(cpuCount: int, fileName: string)
    requires cpuCount >= 1
    ensures Words(Defaults(cpuCount), fileName, 19) ==
      [BareOption("skip-text"), LongOption("language", "vie")] +
      DefaultImageDpi(fileName) +
      [LongOption("output-type", "pdfa"), LongOption("pdf-renderer", "auto"),
       LongOption("optimize", "0")]
  {
    var p := Defaults(cpuCount);
    DefaultWords15(cpuCount, fileName);
    assert Words(p, fileName, 16) == Words(p, fileName, 15);
    assert Words(p, fileName, 17) == Words(p, fileName, 16);
    assert Words(p, fileName, 18) == Words(p, fileName, 17);
  }

  lemma {:induction false} DefaultWords22(cpuCount: int, fileName: string)
    requires cpuCount >= 1
    ensures Words(Defaults(cpuCount), fileName, 22) ==
      [BareOption("skip-text"), LongOption("language", "vie")] +
      DefaultImageDpi(fileName) +
      [LongOption("output-type", "pdfa"), LongOption("pdf-renderer", "auto"),
       LongOption("optimize", "0"), LongOption("fast-web-view", "1.0")]
  {
    var p := Defaults(cpuCount);
    DefaultWords19(cpuCount, fileName);
    assert Words(p, fileName, 20) == Words(p, fileName, 19);
    assert Words(p, fileName, 21) == Words(p, fileName, 20);
  }

  lemma {:induction false} DefaultWords26(cpuCount: int, fileName: string)
    requires cpuCount >= 1
    ensures Words(Defaults(cpuCount), fileName, 26) ==
      [BareOption("skip-text"), LongOption("language", "vie")] +
      DefaultImageDpi(fileName) +
      [LongOption("output-type", "pdfa"), LongOption("pdf-renderer", "auto"),
       LongOption("optimize", "0"), LongOption("fast-web-view", "1.0"),
       BareOption("continue-on-soft-render-error"), LongOption("verbose", "1")]
  {
    var p := Defaults(cpuCount);
    DefaultWords22(cpuCount, fileName);
    assert IntToString(1) == "1";
    assert Words(p, fileName, 23) == Words(p, fileName, 22) + [BareOption("continue-on-soft-render-error")];
    assert Words(p, fileName, 24) == Words(p, fileName, 23) + [LongOption("verbose", "1")];
    assert Words(p, fileName, 25) == Words(p, fileName, 24);
  }

  lemma {:induction false} DefaultWords29(cpuCount: int, fileName: string)
    requires cpuCount >= 1
    ensures Words(Defaults(cpuCount), fileName, 29) ==
      [BareOption("skip-text"), LongOption("language", "vie")] +
      DefaultImageDpi(fileName) +
      [LongOption("output-type", "pdfa"), LongOption("pdf-renderer", "auto"),
       LongOption("optimize", "0"), LongOption("fast-web-view", "1.0"),
       BareOption("continue-on-soft-render-error"), LongOption("verbose", "1"),
       LongOption("jobs", IntToString(cpuCount))]
  {
    var p := Defaults(cpuCount);
    DefaultWords26(cpuCount, fileName);
    assert Words(p, fileName, 27) == Words(p, fileName, 26);
    assert Words(p, fileName, 28) == Words(p, fileName, 27);
  }

  /**
   * A request that sets no parameter passes the mode, language, output type,
   * renderer, optimize level, fast-web-view size, soft-render switch,
   * verbosity and job count, and the image dpi unless the file is a PDF.
   */
  lemma DefaultCommandWords(cpuCount: int, fileName: string)
    requires cpuCount >= 1
    ensures RenderAll(Flags(Defaults(cpuCount), fileName)) ==
      [BareOption("skip-text"), LongOption("language", "vie")] +
      (if IsPdfName(fileName) then [] else [LongOption("image-dpi", "300")]) +
      [LongOption("output-type", "pdfa"), LongOption("pdf-renderer", "auto"), LongOption("optimize", "0"),
       LongOption("fast-web-view", "1.0"), BareOption("continue-on-soft-render-error"),
       LongOption("verbose", "1"), LongOption("jobs", IntToString(cpuCount))]
  {
    DefaultWords29(cpuCount, fileName);
    WordsRenderAll(Defaults(cpuCount), fileName, SlotCount);
  }
}
