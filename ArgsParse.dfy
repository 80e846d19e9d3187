/**
 * Reading the handler's argument vector back: the interpreter prefix, one
 * flag per word (`--name` or `--name=value`, split at the first `=`), and the
 * two paths at the end. Because no option name contains `=`, every flag the
 * handler writes reads back as its own name and value, so the vector
 * determines the options, their values and their order.
 */
module ArgsParse {
  import opened Wrappers
  import opened Text
  import opened OcrArgs

  /**
   * The option names, in four groups of eight. `KeyNameHasNoEquals` combines
   * them; proving all 32 names in one lemma is far more costly than
   * proving them in groups.
   */
  lemma NamesHaveNoEquals1()
    ensures '=' !in "skip-text"
    ensures '=' !in "normal"
    ensures '=' !in "force-ocr"
    ensures '=' !in "redo-ocr"
    ensures '=' !in "invalidate-digital-signatures"
    ensures '=' !in "language"
    ensures '=' !in "image-dpi"
    ensures '=' !in "skip-big"
  {
  }

  lemma NamesHaveNoEquals2()
    ensures '=' !in "oversample"
    ensures '=' !in "rotate-pages"
    ensures '=' !in "deskew"
    ensures '=' !in "clean"
    ensures '=' !in "clean-final"
    ensures '=' !in "remove-vectors"
    ensures '=' !in "output-type"
    ensures '=' !in "pdf-renderer"
  {
  }

  lemma NamesHaveNoEquals3()
    ensures '=' !in "optimize"
    ensures '=' !in "title"
    ensures '=' !in "author"
    ensures '=' !in "keywords"
    ensures '=' !in "subject"
    ensures '=' !in "pages"
    ensures '=' !in "max-image-mpixels"
    ensures '=' !in "rotate-pages-threshold"
  {
  }

  lemma NamesHaveNoEquals4()
    ensures '=' !in "fast-web-view"
    ensures '=' !in "continue-on-soft-render-error"
    ensures '=' !in "verbose"
    ensures '=' !in "jpeg-quality"
    ensures '=' !in "png-quality"
    ensures '=' !in "jbig2-lossy"
    ensures '=' !in "jbig2-threshold"
    ensures '=' !in "jobs"
  {
  }

  /** Option names are free of `=`, so the first `=` of a flag ends its name. */
  lemma KeyNameHasNoEquals(k: Key)
    ensures '=' !in KeyName(k)
  {
    NamesHaveNoEquals1();
    NamesHaveNoEquals2();
    NamesHaveNoEquals3();
    NamesHaveNoEquals4();
  }

  /** Distinct options have distinct names, so a name read back identifies its option. */
  lemma KeyNameInjective(a: Key, b: Key)
    ensures KeyName(a) == KeyName(b) ==> a == b
  {
  }

  /** The position of the first `=` in `s`. */
  function FirstEquals(s: string): (r: Option<nat>)
    ensures r.Some? ==> r.value < |s| && s[r.value] == '=' && '=' !in s[..r.value]
    ensures r.None? ==> '=' !in s
  {
    if s == [] then None
    else if s[0] == '=' then Some(0)
    else
      match FirstEquals(s[1..])
      case None => None
      case Some(i) =>
        assert s[..i + 1] == [s[0]] + s[1..][..i];
        Some(i + 1)
  }

  lemma FirstEqualsAfterName(name: string, value: string)
    requires '=' !in name
    ensures FirstEquals(name + "=" + value) == Some(|name|)
  {
    var w := name + "=" + value;
    assert w[|name|] == '=' && w[..|name|] == name;
    assert forall i :: 0 <= i < |name| ==> w[i] == name[i];
  }

  /** An option setting as `ocrmypdf` reads it: a name and, after `=`, a value. */
  datatype Setting = Setting(name: string, value: Option<string>)

  /** The setting a flag is written as. */
  function SettingOf(f: Flag): Setting {
    Setting(KeyName(f.key), f.value)
  }

  function SettingsOf(fs: seq<Flag>): (r: seq<Setting>)
    ensures |r| == |fs|
    ensures forall i :: 0 <= i < |fs| ==> r[i] == SettingOf(fs[i])
  {
    if fs == [] then [] else SettingsOf(fs[..|fs| - 1]) + [SettingOf(fs[|fs| - 1])]
  }

  /** One word of the vector as a setting: `--name` or `--name=value`. */
  function ParseSetting(w: string): Option<Setting> {
    if !StartsWith(w, "--") then None
    else
      var body := w[2..];
      match FirstEquals(body)
      case None => Some(Setting(body, None))
      case Some(i) => Some(Setting(body[..i], Some(body[i + 1..])))
  }

  /** Each rendered flag reads back as its name and value, the value kept whole even when it contains `=`. */
  lemma ParseRender(f: Flag)
    ensures ParseSetting(Render(f)) == Some(SettingOf(f))
  {
    var name := KeyName(f.key);
    KeyNameHasNoEquals(f.key);
    if f.value.Some? {
      var w := LongOption(name, f.value.value);
      assert w[2..] == name + "=" + f.value.value;
      FirstEqualsAfterName(name, f.value.value);
      assert w[2..][..|name|] == name;
      assert w[2..][|name| + 1..] == f.value.value;
    } else {
      var w := BareOption(name);
      assert w[2..] == name;
    }
  }

  /** Every word as a setting, or nothing when one of them is not an option. */
  function ParseSettings(ws: seq<string>): (r: Option<seq<Setting>>)
    ensures r.Some? ==> |r.value| == |ws|
  {
    if ws == [] then Some([])
    else
      match ParseSettings(ws[..|ws| - 1])
      case None => None
      case Some(os) =>
        (match ParseSetting(ws[|ws| - 1])
         case None => None
         case Some(o) => Some(os + [o]))
  }

  lemma {:induction false} ParseRenderAll(fs: seq<Flag>)
    ensures ParseSettings(RenderAll(fs)) == Some(SettingsOf(fs))
  {
    if fs != [] {
      var init, last := fs[..|fs| - 1], fs[|fs| - 1];
      ParseRenderAll(init);
      ParseRender(last);
      var ws := RenderAll(fs);
      assert ws[..|ws| - 1] == RenderAll(init);
      assert ws[|ws| - 1] == Render(last);
    }
  }

  /** What `subprocess.run` is asked to run, read back from the vector. */
  datatype Invocation = Invocation(executable: string, settings: seq<Setting>, inputPath: string, outputPath: string)

  function ParseCommandLine(args: seq<string>): Option<Invocation> {
    if |args| < 6 || args[1..4] != ["-u", "-m", "ocrmypdf"] then None
    else
      match ParseSettings(args[4..|args| - 2])
      case None => None
      case Some(os) => Some(Invocation(args[0], os, args[|args| - 2], args[|args| - 1]))
  }

  /**
   * The vector the handler passes runs `ocrmypdf` as a module under the given
   * interpreter, with exactly the collected flags, then the input and output paths.
   */
  lemma CommandLineRoundTrip(p: Params, fileName: string, executable: string, inputPath: string, outputPath: string)
    ensures ParseCommandLine(CommandLine(p, fileName, executable, inputPath, outputPath)) ==
      Some(Invocation(executable, SettingsOf(Flags(p, fileName)), inputPath, outputPath))
  {
    var ws := RenderAll(Flags(p, fileName));
    var args := CommandLine(p, fileName, executable, inputPath, outputPath);
    assert args[1..4] == ["-u", "-m", "ocrmypdf"];
    assert args[4..|args| - 2] == ws;
    ParseRenderAll(Flags(p, fileName));
  }
}
