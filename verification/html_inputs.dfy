/**
 * The HTML inputs plugin (src/html-inputs/index.js): HTML entries of the
 * input are replaced by the scripts they load, HTML files with assets the
 * plugin cannot bundle are refused, and the HTML files are written to the
 * output directory after the bundle. Loading and scraping an HTML file
 * (cheerio) is a parameter returning what the scrapers find.
 */
module HtmlInputs {
  import opened Common
  import opened Paths
  import Helpers

  /** `isHtml`: the path ends in ".htm" or ".html". */
  predicate IsHtml(path: string)
  {
    EndsWith(path, ".html") || EndsWith(path, ".htm")
  }

  /** What the scrapers find in one loaded HTML file, and its serialised text. */
  datatype HtmlDoc = HtmlDoc(jsEntries: seq<string>, cssLinks: seq<string>, imgSrcs: seq<string>, jsAssets: seq<string>, html: string)

  /** `input.filter(fn)`, order kept. */
  function Filter(input: seq<string>, fn: string -> bool): (r: seq<string>)
    ensures |r| <= |input|
    ensures forall i :: 0 <= i < |r| ==> fn(r[i]) && r[i] in input
  {
    if |input| == 0 then []
    else
      var rest := Filter(input[..|input| - 1], fn);
      if fn(input[|input| - 1]) then rest + [input[|input| - 1]] else rest
  }

  /** Filtering a concatenation filters each part, in order. */
  lemma {:induction false} FilterAppend(a: seq<string>, b: seq<string>, fn: string -> bool)
    ensures Filter(a + b, fn) == Filter(a, fn) + Filter(b, fn)
    decreases |b|
  {
    if |b| == 0 {
      assert a + b == a;
    } else {
      assert (a + b)[..|a + b| - 1] == a + b[..|b| - 1];
      FilterAppend(a, b[..|b| - 1], fn);
    }
  }

  /** An element is kept exactly when it is in the input and passes. */
  lemma {:induction false} FilterMembership(input: seq<string>, fn: string -> bool, x: string)
    ensures x in Filter(input, fn) <==> x in input && fn(x)
    decreases |input|
  {
    if |input| > 0 {
      FilterMembership(input[..|input| - 1], fn, x);
      assert input == input[..|input| - 1] + [input[|input| - 1]];
    }
  }

  /**
   * The two filters partition the input: together they hold every element
   * as often as the input does.
   */
  lemma {:induction false} PartitionCounts(input: seq<string>, fn: string -> bool)
    ensures multiset(Filter(input, fn)) + multiset(Filter(input, Helpers.Not(fn))) == multiset(input)
    decreases |input|
  {
    if |input| > 0 {
      var init := input[..|input| - 1];
      PartitionCounts(init, fn);
      assert input == init + [input[|input| - 1]];
    }
  }

  function HtmlPaths(input: seq<string>): seq<string>
  {
    Filter(input, IsHtml)
  }

  function OtherInputs(input: seq<string>): seq<string>
  {
    Filter(input, Helpers.Not(IsHtml))
  }

  /** `resolveEntriesWith`: each script source joined onto its HTML file's directory. */
  function ResolveEntries(htmlPath: string, srcs: seq<string>): (r: seq<string>)
    ensures |r| == |srcs|
    ensures forall i :: 0 <= i < |srcs| ==> r[i] == Join(Dirname(htmlPath), srcs[i])
  {
    seq(|srcs|, i requires 0 <= i < |srcs| => Join(Dirname(htmlPath), srcs[i]))
  }

  /** The script entries of every HTML file, resolved and flattened in file order. */
  function JsEntries(htmlPaths: seq<string>, load: string -> HtmlDoc): seq<string>
  {
    if |htmlPaths| == 0 then []
    else
      var last := htmlPaths[|htmlPaths| - 1];
      JsEntries(htmlPaths[..|htmlPaths| - 1], load) + ResolveEntries(last, load(last).jsEntries)
  }

  /** The scripts of a list of HTML files are those of its parts, in order. */
  lemma {:induction false} JsEntriesAppend(a: seq<string>, b: seq<string>, load: string -> HtmlDoc)
    ensures JsEntries(a + b, load) == JsEntries(a, load) + JsEntries(b, load)
    decreases |b|
  {
    if |b| == 0 {
      assert a + b == a;
    } else {
      var init := b[..|b| - 1];
      var last := b[|b| - 1];
      assert (a + b)[..|a + b| - 1] == a + init;
      JsEntriesAppend(a, init, load);
      AppendAssoc(JsEntries(a, load), JsEntries(init, load), ResolveEntries(last, load(last).jsEntries));
    }
  }

  /** `x` is one of the script sources of `htmlPath`, resolved against it. */
  predicate IsEntryOf(htmlPath: string, load: string -> HtmlDoc, x: string)
  {
    x in ResolveEntries(htmlPath, load(htmlPath).jsEntries)
  }

  /** A script entry of the new input is exactly a resolved script source of one of the HTML files. */
  lemma {:induction false} JsEntryOrigin(htmlPaths: seq<string>, load: string -> HtmlDoc, x: string)
    ensures x in JsEntries(htmlPaths, load) <==> exists i :: 0 <= i < |htmlPaths| && IsEntryOf(htmlPaths[i], load, x)
    decreases |htmlPaths|
  {
    if |htmlPaths| > 0 {
      var n := |htmlPaths| - 1;
      var init := htmlPaths[..n];
      JsEntryOrigin(init, load, x);
      if x in JsEntries(init, load) {
        var i :| 0 <= i < |init| && IsEntryOf(init[i], load, x);
        assert htmlPaths[i] == init[i];
      } else if IsEntryOf(htmlPaths[n], load, x) {
      } else {
        forall i | 0 <= i < |htmlPaths|
          ensures !IsEntryOf(htmlPaths[i], load, x)
        {
          if i < n {
            assert htmlPaths[i] == init[i];
          }
        }
      }
    }
  }

  /** The kinds of asset the plugin refuses. */
  datatype AssetKind = Stylesheet | Image | JsAsset

  /** `getCssLinks`, `getImgSrc` and `getJsAssets`. */
  function Found(doc: HtmlDoc, kind: AssetKind): seq<string>
  {
    match kind
    case Stylesheet => doc.cssLinks
    case Image => doc.imgSrcs
    case JsAsset => doc.jsAssets
  }

  /** Whether the flattened list of assets of kind `kind` is non-empty. */
  predicate AnyFound(htmlPaths: seq<string>, load: string -> HtmlDoc, kind: AssetKind)
  {
    exists i :: 0 <= i < |htmlPaths| && |Found(load(htmlPaths[i]), kind)| > 0
  }

  const CssError := "Stylesheets within HTML files are unsupported."
  const ImgError := "Images within HTML files are unsupported."
  const JsAssetError := "JS assets within HTML files are unsupported."

  /** The first unsupported kind of asset found, stylesheets before images before JS assets. */
  function UnsupportedError(htmlPaths: seq<string>, load: string -> HtmlDoc): (r: Option<string>)
    ensures r == Some(CssError) <==> AnyFound(htmlPaths, load, Stylesheet)
    ensures r == Some(ImgError) <==> !AnyFound(htmlPaths, load, Stylesheet) && AnyFound(htmlPaths, load, Image)
    ensures r == Some(JsAssetError) <==>
      !AnyFound(htmlPaths, load, Stylesheet) && !AnyFound(htmlPaths, load, Image) && AnyFound(htmlPaths, load, JsAsset)
    ensures r.None? <==>
      !AnyFound(htmlPaths, load, Stylesheet) && !AnyFound(htmlPaths, load, Image) && !AnyFound(htmlPaths, load, JsAsset)
  {
    if AnyFound(htmlPaths, load, Stylesheet) then Some(CssError)
    else if AnyFound(htmlPaths, load, Image) then Some(ImgError)
    else if AnyFound(htmlPaths, load, JsAsset) then Some(JsAssetError)
    else None
  }

  /** `htmlFiles`: each HTML file's base name and serialised text, in input order. */
  function HtmlFiles(htmlPaths: seq<string>, load: string -> HtmlDoc): (r: seq<(string, string)>)
    ensures |r| == |htmlPaths|
    ensures forall i :: 0 <= i < |htmlPaths| ==> r[i] == (Base(htmlPaths[i]), load(htmlPaths[i]).html)
  {
    seq(|htmlPaths|, i requires 0 <= i < |htmlPaths| => (Base(htmlPaths[i]), load(htmlPaths[i]).html))
  }

  /** The input options: `input` and every other option, which the hook passes through. */
  datatype InputOptions = InputOptions(input: seq<string>, rest: map<string, Json>)

  /** What a successful `options` hook returns and keeps for `writeBundle`. */
  datatype OptionsResult = OptionsResult(options: InputOptions, htmlFiles: seq<(string, string)>)

  /**
   * The `options` hook: the error for unsupported assets, or the new input
   * (the other inputs, then the scripts of the HTML files) and the HTML files.
   */
  function Options(opts: InputOptions, load: string -> HtmlDoc): (r: Result<OptionsResult, string>)
    ensures r.Err? <==> UnsupportedError(HtmlPaths(opts.input), load).Some?
    ensures r.Err? ==> r.error == UnsupportedError(HtmlPaths(opts.input), load).value
    ensures r.Ok? ==> r.value.options.rest == opts.rest
    ensures r.Ok? ==> r.value.options.input == OtherInputs(opts.input) + JsEntries(HtmlPaths(opts.input), load)
    ensures r.Ok? ==> r.value.htmlFiles == HtmlFiles(HtmlPaths(opts.input), load)
  {
    var htmlPaths := HtmlPaths(opts.input);
    match UnsupportedError(htmlPaths, load)
    case Some(e) => Err(e)
    case None =>
      Ok(OptionsResult(InputOptions(OtherInputs(opts.input) + JsEntries(htmlPaths, load), opts.rest), HtmlFiles(htmlPaths, load)))
  }

  /** Every non-HTML input survives, and no HTML file stays in the input unless a script entry resolves to it. */
  lemma OptionsKeepsOtherInputs(opts: InputOptions, load: string -> HtmlDoc, x: string)
    requires Options(opts, load).Ok?
    ensures x in opts.input && !IsHtml(x) ==> x in Options(opts, load).value.options.input
    ensures x in Options(opts, load).value.options.input ==>
      (x in opts.input && !IsHtml(x)) || x in JsEntries(HtmlPaths(opts.input), load)
  {
    FilterMembership(opts.input, Helpers.Not(IsHtml), x);
  }

  /** `writeBundle`'s failures: it runs before `options` stored the HTML files, or without an output directory. */
  datatype WriteError = HtmlFilesUndefined | DestDirUndefined

  /** The writes `writeBundle` makes, each file at its base name inside `dest`. */
  function Writes(dest: string, files: seq<(string, string)>): (r: seq<(string, string)>)
    ensures |r| == |files|
  {
    if |files| == 0 then []
    else Writes(dest, files[..|files| - 1]) + [(Join(dest, files[|files| - 1].0), files[|files| - 1].1)]
  }

  lemma {:induction false} WritesAt(dest: string, files: seq<(string, string)>, i: nat)
    requires i < |files|
    ensures Writes(dest, files)[i] == (Join(dest, files[i].0), files[i].1)
    decreases |files|
  {
    if i < |files| - 1 {
      WritesAt(dest, files[..|files| - 1], i);
    }
  }

  /** The i-th HTML file is written where the shared `writeFile` helper would write it. */
  lemma WritesUseHelperDestination(dest: string, htmlPaths: seq<string>, load: string -> HtmlDoc, i: nat)
    requires i < |htmlPaths|
    ensures Writes(dest, HtmlFiles(htmlPaths, load))[i] == (Helpers.WriteFileDestination(dest, htmlPaths[i]), load(htmlPaths[i]).html)
  {
    WritesAt(dest, HtmlFiles(htmlPaths, load), i);
  }

  /**
   * The plugin object: `htmlFiles` and `destDir` are its closure variables
   * (`None` while undefined), and `written` logs the file writes.
   */
  class HtmlInputsPlugin {
    var htmlFiles: Option<seq<(string, string)>>
    var destDir: Option<string>
    var written: seq<(string, string)>
    const load: string -> HtmlDoc

    constructor (load: string -> HtmlDoc)
      ensures htmlFiles.None? && destDir.None? && written == []
      ensures this.load == load
    {
      htmlFiles, destDir, written := None, None, [];
      this.load := load;
    }

    /** The `options` hook: a thrown error leaves `htmlFiles` as it was. */
    method OptionsHook(opts: InputOptions) returns (r: Result<InputOptions, string>)
      modifies this
      ensures r.Ok? <==> Options(opts, load).Ok?
      ensures r.Ok? ==> r.value == Options(opts, load).value.options && htmlFiles == Some(Options(opts, load).value.htmlFiles)
      ensures r.Err? ==> r.error == Options(opts, load).error && htmlFiles == old(htmlFiles)
      ensures destDir == old(destDir) && written == old(written)
    {
      match Options(opts, load)
      case Err(e) =>
        r := Err(e);
      case Ok(res) =>
        htmlFiles := Some(res.htmlFiles);
        r := Ok(res.options);
    }

    /** `generateBundle`: remembers the output directory. */
    method GenerateBundle(dir: Option<string>)
      modifies this
      ensures destDir == dir && htmlFiles == old(htmlFiles) && written == old(written)
    {
      destDir := dir;
    }

    /** `writeBundle`: writes every HTML file, in order, into the output directory. */
    method WriteBundle() returns (r: Result<(), WriteError>)
      modifies this
      ensures htmlFiles == old(htmlFiles) && destDir == old(destDir)
      ensures old(htmlFiles).None? ==> r == Err(HtmlFilesUndefined) && written == old(written)
      ensures old(htmlFiles).Some? && |old(htmlFiles).value| > 0 && old(destDir).None? ==> r == Err(DestDirUndefined) && written == old(written)
      ensures r.Ok? <==> old(htmlFiles).Some? && (|old(htmlFiles).value| == 0 || old(destDir).Some?)
      ensures r.Ok? && old(destDir).Some? ==> written == old(written) + Writes(old(destDir).value, old(htmlFiles).value)
      ensures r.Ok? && old(destDir).None? ==> written == old(written)
    {
      if htmlFiles.None? {
        return Err(HtmlFilesUndefined);
      }
      var files := htmlFiles.value;
      if |files| == 0 {
        return Ok(());
      }
      if destDir.None? {
        return Err(DestDirUndefined);
      }
      var dest := destDir.value;
      var i := 0;
      while i < |files|
        invariant 0 <= i <= |files|
        invariant htmlFiles == old(htmlFiles) && destDir == old(destDir)
        invariant written == old(written) + Writes(dest, files[..i])
      {
        assert files[..i + 1][..i] == files[..i];
        AppendAssoc(old(written), Writes(dest, files[..i]), [(Join(dest, files[i].0), files[i].1)]);
        written := written + [(Join(dest, files[i].0), files[i].1)];
        i := i + 1;
      }
      assert files[..i] == files;
      r := Ok(());
    }
  }
}
