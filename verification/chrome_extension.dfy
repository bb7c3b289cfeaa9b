/**
 * The main plugin (src/index.ts): input classification in `options`, the
 * builtin plugins and their placement around the main plugin, the
 * run-once guards on the vite hooks, the stub entry, and `watchChange`.
 * The root files machine it talks to is not part of this model: what the
 * plugin sends it is kept as a log of events.
 */
module ChromeExtension {
  import opened Common
  import opened Paths
  import opened SharedEvents

  /** A plugin as this file sees it: its name and whether it is the main (RPCE) plugin. */
  datatype PluginRef = PluginRef(name: string, isRpce: bool)

  /** One `[fileName, id]` pair of an object input: the output name and the path it is built from. */
  datatype Entry = Entry(fileName: string, id: string)

  /** rollup's `input` option. */
  datatype Input =
    | InputString(path: string)
    | InputArray(paths: seq<string>)
    | InputObject(entries: seq<Entry>)

  /** The events this file sends to the root files machine. */
  datatype ServiceEvent =
    | UpdateFiles(files: seq<BaseAsset>)
    | RootEvent(root: string)
    | ChangeEvent(id: string, change: ChangeKind)

  /** The parts of the vite config this file reads. */
  datatype ViteConfig = ViteConfig(root: Option<string>, settings: map<string, string>)

  /** `getAbsolutePath`: absolute paths unchanged, relative ones joined onto the working directory. */
  function AbsolutePath(cwd: string, input: string): (r: string)
    ensures IsAbsolute(input) ==> r == input
    ensures !IsAbsolute(input) ==> r == Join(cwd, input)
  {
    if IsAbsolute(input) then input else Join(cwd, input)
  }

  /** With an absolute working directory every result is absolute. */
  lemma AbsolutePathIsAbsolute(cwd: string, input: string)
    requires IsAbsolute(cwd)
    ensures IsAbsolute(AbsolutePath(cwd, input))
  {
    if !IsAbsolute(input) && input != "" {
      var r := Join(cwd, input);
      assert r[0] == cwd[0];
    }
  }

  // ---------------------------------------------------------------------
  // Builtins
  // ---------------------------------------------------------------------

  /** A builtin as the list holds it: its name prefixed with "crx:". */
  function Prefixed(p: PluginRef): PluginRef
  {
    p.(name := "crx:" + p.name)
  }

  /** The builtins list: falsy factory results dropped, each name prefixed with "crx:". */
  function Builtins(made: seq<Option<PluginRef>>): (r: seq<PluginRef>)
    ensures |r| <= |made|
    ensures forall i :: 0 <= i < |r| ==> StartsWith(r[i].name, "crx:")
    ensures r == [] <==> forall i :: 0 <= i < |made| ==> made[i].None?
    decreases |made|
  {
    if |made| == 0 then []
    else
      var rest := Builtins(made[1..]);
      assert forall i :: 1 <= i < |made| ==> made[i] == made[1..][i - 1];
      if made[0].Some? then [Prefixed(made[0].value)] + rest else rest
  }

  /** The list holds exactly the present factory results, prefixed. */
  lemma {:induction false} BuiltinsMembers(made: seq<Option<PluginRef>>)
    ensures forall i :: 0 <= i < |made| && made[i].Some? ==> Prefixed(made[i].value) in Builtins(made)
    ensures forall p :: p in Builtins(made) ==>
      exists i :: 0 <= i < |made| && made[i].Some? && p == Prefixed(made[i].value)
    decreases |made|
  {
    if |made| > 0 {
      BuiltinsMembers(made[1..]);
      assert forall i :: 1 <= i < |made| ==> made[i] == made[1..][i - 1];
      forall p | p in Builtins(made)
        ensures exists i :: 0 <= i < |made| && made[i].Some? && p == Prefixed(made[i].value)
      {
        if p in Builtins(made[1..]) {
          var i :| 0 <= i < |made[1..]| && made[1..][i].Some? && p == Prefixed(made[1..][i].value);
          assert made[i + 1] == made[1..][i];
        }
      }
    }
  }

  /** Where the `i`-th builtin came from when at most the factory result `missing` is absent. */
  function MadeIndex(made: seq<Option<PluginRef>>, missing: nat, i: nat): nat
    requires missing < |made|
  {
    if made[missing].None? && i >= missing then i + 1 else i
  }

  /**
   * Every factory result that is there appears once, in order: the list is
   * the present results, prefixed, with only the missing one skipped.
   */
  lemma {:induction false} BuiltinsCount(made: seq<Option<PluginRef>>, missing: nat)
    requires missing < |made|
    requires forall i :: 0 <= i < |made| && i != missing ==> made[i].Some?
    ensures |Builtins(made)| == (if made[missing].Some? then |made| else |made| - 1)
    ensures forall i :: 0 <= i < |Builtins(made)| ==>
      MadeIndex(made, missing, i) < |made| && made[MadeIndex(made, missing, i)].Some? &&
      Builtins(made)[i] == Prefixed(made[MadeIndex(made, missing, i)].value)
    decreases |made|
  {
    var r := Builtins(made);
    var rest := Builtins(made[1..]);
    if missing > 0 {
      BuiltinsCount(made[1..], missing - 1);
      forall i | 0 <= i < |r|
        ensures MadeIndex(made, missing, i) < |made| && made[MadeIndex(made, missing, i)].Some?
        ensures r[i] == Prefixed(made[MadeIndex(made, missing, i)].value)
      {
        if i > 0 {
          assert r[i] == rest[i - 1];
          assert MadeIndex(made, missing, i) == MadeIndex(made[1..], missing - 1, i - 1) + 1;
        }
      }
    } else {
      AllPresentCount(made[1..]);
      forall i | 0 <= i < |r|
        ensures MadeIndex(made, missing, i) < |made| && made[MadeIndex(made, missing, i)].Some?
        ensures r[i] == Prefixed(made[MadeIndex(made, missing, i)].value)
      {
        if made[0].Some? {
          if i > 0 {
            assert r[i] == rest[i - 1];
          }
        } else {
          assert r[i] == rest[i];
        }
      }
    }
  }

  /** With every factory result present, the list is all of them, prefixed, in order. */
  lemma {:induction false} AllPresentCount(made: seq<Option<PluginRef>>)
    requires forall i :: 0 <= i < |made| ==> made[i].Some?
    ensures |Builtins(made)| == |made|
    ensures forall i :: 0 <= i < |made| ==> Builtins(made)[i] == Prefixed(made[i].value)
    decreases |made|
  {
    if |made| > 0 {
      AllPresentCount(made[1..]);
      forall i | 0 < i < |made|
        ensures Builtins(made)[i] == Prefixed(made[i].value)
      {
        assert Builtins(made)[i] == Builtins(made[1..])[i - 1];
      }
    }
  }

  /** The index of the first RPCE plugin, or -1 (`findIndex(isRPCE)`). */
  function FirstRpce(s: seq<PluginRef>): (r: int)
    ensures -1 <= r < |s|
    ensures r >= 0 ==> s[r].isRpce && forall i :: 0 <= i < r ==> !s[i].isRpce
    ensures r == -1 ==> forall i :: 0 <= i < |s| ==> !s[i].isRpce
    decreases |s|
  {
    if |s| == 0 then -1
    else if s[0].isRpce then 0
    else
      var k := FirstRpce(s[1..]);
      if k == -1 then -1 else k + 1
  }

  /** xstate, the file writer in serve, the caller's plugins, then the validator. */
  function Front(plugins: seq<PluginRef>, builtins: seq<PluginRef>, serve: bool): (r: seq<PluginRef>)
    requires |builtins| >= 3
    ensures |r| == |plugins| + 2 + (if serve then 1 else 0)
    ensures r[0] == builtins[1] && r[|r| - 1] == builtins[0]
    ensures serve ==> r[1] == builtins[2]
  {
    [builtins[1]] + (if serve then [builtins[2]] else []) + plugins + [builtins[0]]
  }

  /** Between the leading builtins and the validator are the caller's plugins, in their order. */
  lemma FrontKeepsPlugins(plugins: seq<PluginRef>, builtins: seq<PluginRef>, serve: bool)
    requires |builtins| >= 3
    ensures var r := Front(plugins, builtins, serve); r[(if serve then 2 else 1)..|r| - 1] == plugins
  {
  }

  /** The plugin list after `addBuiltinPlugins` ran on it. */
  function WithBuiltins(plugins: seq<PluginRef>, builtins: seq<PluginRef>, serve: bool): seq<PluginRef>
    requires |builtins| >= 3
  {
    var front := Front(plugins, builtins, serve);
    var at := FirstRpce(front) + 1;
    front[..at] + builtins[3..] + front[at..]
  }

  /** `splice(at, 0, ...mid)`: what was before `at` stays, `mid` follows, then the rest. */
  lemma SpliceParts<T>(s: seq<T>, mid: seq<T>, at: nat)
    requires at <= |s|
    ensures var r := s[..at] + mid + s[at..];
      && |r| == |s| + |mid|
      && r[..at] == s[..at]
      && r[at..at + |mid|] == mid
      && r[at + |mid|..] == s[at..]
      && r[..at] + r[at + |mid|..] == s
  {
    assert s[..at] + s[at..] == s;
  }

  /** The validator ends the list, which grows by the builtins (the writer only in serve). */
  lemma WithBuiltinsEnds(plugins: seq<PluginRef>, builtins: seq<PluginRef>, serve: bool)
    requires |builtins| >= 3
    requires !builtins[0].isRpce
    ensures var r := WithBuiltins(plugins, builtins, serve);
      && |r| == |plugins| + |builtins| - 1 + (if serve then 1 else 0)
      && r[|r| - 1] == builtins[0]
  {
    var front := Front(plugins, builtins, serve);
    var at := FirstRpce(front) + 1;
    assert at < |front|;
    var r := front[..at] + builtins[3..] + front[at..];
    assert r[|r| - 1] == front[at..][|front| - at - 1];
  }

  /**
   * The remaining builtins sit right after the first RPCE plugin, or at
   * the front when there is none; taking them out again gives xstate, the
   * writer (in serve), the caller's plugins in their order, and the
   * validator.
   */
  lemma WithBuiltinsSplice(plugins: seq<PluginRef>, builtins: seq<PluginRef>, serve: bool)
    requires |builtins| >= 3
    ensures var r := WithBuiltins(plugins, builtins, serve);
      var at := FirstRpce(Front(plugins, builtins, serve)) + 1;
      && r[at..at + |builtins| - 3] == builtins[3..]
      && r[..at] + r[at + |builtins| - 3..] == Front(plugins, builtins, serve)
      && (at > 0 ==> r[0] == builtins[1] && r[at - 1].isRpce)
  {
    var front := Front(plugins, builtins, serve);
    var at := FirstRpce(front) + 1;
    SpliceParts(front, builtins[3..], at);
  }

  /** The remaining builtins go to the very front exactly when no caller plugin is RPCE. */
  lemma {:induction false} NoRpceMeansFront(plugins: seq<PluginRef>, builtins: seq<PluginRef>, serve: bool)
    requires |builtins| >= 3
    requires forall i :: 0 <= i < |builtins| ==> !builtins[i].isRpce
    ensures FirstRpce(Front(plugins, builtins, serve)) == -1 <==> forall i :: 0 <= i < |plugins| ==> !plugins[i].isRpce
  {
    var front := Front(plugins, builtins, serve);
    var pre := if serve then 2 else 1;
    if FirstRpce(front) == -1 {
      forall i | 0 <= i < |plugins| ensures !plugins[i].isRpce {
        assert plugins[i] == front[i + pre];
      }
    } else {
      var k := FirstRpce(front);
      assert 0 < k < |front| - 1;
      if serve { assert k != 1; }
      assert front[k] == plugins[k - pre];
    }
  }

  /** The caller's plugin array, which `addBuiltinPlugins` changes in place. */
  class PluginArray {
    var items: seq<PluginRef>

    constructor (items0: seq<PluginRef>)
      ensures items == items0
    {
      items := items0;
    }
  }

  /** The callbacks collected by `configureServer`, in insertion order without repeats. */
  class ServerCallbacks {
    var cbs: seq<nat>

    constructor (cbs0: seq<nat>)
      ensures cbs == cbs0
    {
      cbs := cbs0;
    }

    /**
     * The function `configureServer` returns: each callback in order until
     * one fails; whatever happens the set is emptied.
     */
    method RunAll(fails: set<nat>) returns (ran: seq<nat>, failed: bool)
      modifies this
      ensures ran == UntilFailure(old(cbs), fails)
      ensures failed <==> exists i :: 0 <= i < |old(cbs)| && old(cbs)[i] in fails
      ensures cbs == []
    {
      ghost var all := cbs;
      ran := [];
      failed := false;
      var i := 0;
      while i < |cbs| && !failed
        invariant cbs == all
        invariant 0 <= i <= |cbs|
        invariant failed <==> exists j :: 0 <= j < i && cbs[j] in fails
        invariant ran == UntilFailure(cbs[..i], fails)
        invariant failed ==> UntilFailure(cbs[..i], fails) == UntilFailure(cbs, fails)
      {
        UntilFailureSnoc(cbs[..i], cbs[i], fails);
        assert cbs[..i + 1] == cbs[..i] + [cbs[i]];
        ran := ran + [cbs[i]];
        if cbs[i] in fails {
          failed := true;
          UntilFailureStops(cbs, i + 1, fails);
        }
        i := i + 1;
      }
      if !failed {
        assert cbs[..i] == cbs;
      }
      assert ran == UntilFailure(all, fails);
      cbs := [];
    }
  }

  /** The callbacks run: all of them, or up to and including the first that fails. */
  function UntilFailure(cbs: seq<nat>, fails: set<nat>): (r: seq<nat>)
    ensures |r| <= |cbs| && r == cbs[..|r|]
    ensures (forall i :: 0 <= i < |cbs| ==> cbs[i] !in fails) ==> r == cbs
    ensures |r| < |cbs| ==> |r| > 0 && r[|r| - 1] in fails
    decreases |cbs|
  {
    if |cbs| == 0 then []
    else if cbs[0] in fails then [cbs[0]]
    else [cbs[0]] + UntilFailure(cbs[1..], fails)
  }

  lemma {:induction false} UntilFailureSnoc(cbs: seq<nat>, cb: nat, fails: set<nat>)
    requires forall i :: 0 <= i < |cbs| ==> cbs[i] !in fails
    ensures UntilFailure(cbs + [cb], fails) == cbs + [cb]
    decreases |cbs|
  {
    if |cbs| > 0 {
      assert (cbs + [cb])[1..] == cbs[1..] + [cb];
      UntilFailureSnoc(cbs[1..], cb, fails);
    }
  }

  lemma {:induction false} UntilFailureStops(cbs: seq<nat>, k: nat, fails: set<nat>)
    requires 0 < k <= |cbs|
    requires cbs[k - 1] in fails
    requires forall i :: 0 <= i < k - 1 ==> cbs[i] !in fails
    ensures UntilFailure(cbs[..k], fails) == UntilFailure(cbs, fails) == cbs[..k]
    decreases k
  {
    if k > 1 {
      UntilFailureStops(cbs[1..], k - 1, fails);
      assert cbs[..k][1..] == cbs[1..][..k - 1];
    }
  }

  /** `cbs.add(result)` for each truthy result, in order: a Set keeps the first of repeats. */
  function Collect(results: seq<Option<nat>>): (r: seq<nat>)
    ensures forall i, j :: 0 <= i < j < |r| ==> r[i] != r[j]
    ensures forall i :: 0 <= i < |results| && results[i].Some? ==> results[i].value in r
    ensures forall x :: x in r ==> Some(x) in results
    decreases |results|
  {
    if |results| == 0 then []
    else
      var before := Collect(results[..|results| - 1]);
      var last := results[|results| - 1];
      if last.Some? && last.value !in before then before + [last.value] else before
  }

  /** The position of the first callback factory that returned `x`. */
  function FirstAt(results: seq<Option<nat>>, x: nat): (k: nat)
    requires Some(x) in results
    ensures k < |results| && results[k] == Some(x)
    ensures forall b :: 0 <= b < k ==> results[b] != Some(x)
    decreases |results|
  {
    if results[0] == Some(x) then 0
    else
      assert Some(x) in results[1..];
      1 + FirstAt(results[1..], x)
  }

  /** A first occurrence inside a prefix is the first occurrence in the whole sequence. */
  lemma FirstAtPrefix(results: seq<Option<nat>>, n: nat, x: nat)
    requires n <= |results| && Some(x) in results[..n]
    ensures Some(x) in results && FirstAt(results, x) == FirstAt(results[..n], x)
  {
    var k1, k2 := FirstAt(results[..n], x), FirstAt(results, x);
    assert results[k1] == results[..n][k1];
  }

  /** A callback the last result adds is first returned by that last factory. */
  lemma CollectNewLast(results: seq<Option<nat>>)
    requires |results| > 0
    requires results[|results| - 1].Some?
    requires results[|results| - 1].value !in Collect(results[..|results| - 1])
    ensures FirstAt(results, results[|results| - 1].value) == |results| - 1
  {
    var n := |results| - 1;
    assert Some(results[n].value) !in results[..n];
  }

  /**
   * The callbacks are kept in insertion order: a callback comes before
   * another exactly as its first appearance among the results does.
   */
  lemma {:induction false} CollectOrder(results: seq<Option<nat>>)
    ensures forall i, j :: 0 <= i < j < |Collect(results)| ==>
      FirstAt(results, Collect(results)[i]) < FirstAt(results, Collect(results)[j])
    decreases |results|
  {
    if |results| > 0 {
      var n := |results| - 1;
      var init := results[..n];
      var before := Collect(init);
      var r := Collect(results);
      CollectOrder(init);
      var added := results[n].Some? && results[n].value !in before;
      if added {
        CollectNewLast(results);
      }
      assert r == if added then before + [results[n].value] else before;
      forall i, j | 0 <= i < j < |r|
        ensures FirstAt(results, r[i]) < FirstAt(results, r[j])
      {
        assert r[i] == before[i];
        FirstAtPrefix(results, n, before[i]);
        if j < |before| {
          assert r[j] == before[j];
          FirstAtPrefix(results, n, before[j]);
        }
      }
    }
  }

  // ---------------------------------------------------------------------
  // Input classification
  // ---------------------------------------------------------------------

  /** How `options` treats one input path. */
  datatype Kind = HtmlEntry | ManifestEntry | OtherEntry

  /**
   * The HTML filter (rollup's `createFilter` for HTML files) and node's `basename`, both from
   * libraries outside this model.
   */
  datatype PathFilters = PathFilters(isHtml: string -> bool, basename: string -> string)

  /** HTML first; otherwise a base name starting with "manifest" marks a manifest. */
  function KindOf(f: PathFilters, id: string): (k: Kind)
    ensures k == HtmlEntry <==> f.isHtml(id)
    ensures k == ManifestEntry <==> !f.isHtml(id) && HasPrefix(f.basename(id), "manifest")
  {
    if f.isHtml(id) then HtmlEntry
    else if HasPrefix(f.basename(id), "manifest") then ManifestEntry
    else OtherEntry
  }

  /** The kind of every path, in order. */
  function Kinds(f: PathFilters, ids: seq<string>): (r: seq<Kind>)
    ensures |r| == |ids|
  {
    if |ids| == 0 then [] else [KindOf(f, ids[0])] + Kinds(f, ids[1..])
  }

  /** The kind of every object entry, judged by its path. */
  function EntryKinds(f: PathFilters, entries: seq<Entry>): (r: seq<Kind>)
    ensures |r| == |entries|
  {
    if |entries| == 0 then [] else [KindOf(f, entries[0].id)] + EntryKinds(f, entries[1..])
  }

  lemma {:induction false} KindsAt(f: PathFilters, ids: seq<string>, i: nat)
    requires i < |ids|
    ensures Kinds(f, ids)[i] == KindOf(f, ids[i])
  {
    if i > 0 {
      KindsAt(f, ids[1..], i - 1);
    }
  }

  lemma {:induction false} EntryAt(f: PathFilters, entries: seq<Entry>, i: nat)
    requires i < |entries|
    ensures EntryIds(entries)[i] == entries[i].id
    ensures EntryKinds(f, entries)[i] == KindOf(f, entries[i].id)
  {
    if i > 0 {
      EntryAt(f, entries[1..], i - 1);
    }
  }

  /** The UPDATE_FILES sent for an entry of the given kind, if any. */
  function Registration(cwd: string, path: string, htmlName: string, kind: Kind): (r: seq<ServiceEvent>)
    ensures kind == OtherEntry <==> r == []
  {
    match kind
    case HtmlEntry => [UpdateFiles([BaseAsset(AbsolutePath(cwd, path), htmlName, HTML)])]
    case ManifestEntry => [UpdateFiles([BaseAsset(AbsolutePath(cwd, path), "manifest.json", MANIFEST)])]
    case OtherEntry => []
  }

  /** The HTML file name registered for an object entry: ".html" appended unless already there. */
  function HtmlFileName(fileName: string): string
  {
    if HasSuffix(fileName, ".html") then fileName else fileName + ".html"
  }

  /** The registered name always ends in ".html", and a name that already does is kept as it is. */
  lemma HtmlFileNameEndsWithHtml(fileName: string)
    ensures EndsWith(HtmlFileName(fileName), ".html")
    ensures EndsWith(fileName, ".html") ==> HtmlFileName(fileName) == fileName
    ensures !EndsWith(fileName, ".html") ==> HtmlFileName(fileName) == fileName + ".html"
  {
    HasSuffixIsEndsWith(fileName, ".html");
    HasSuffixIsEndsWith(fileName + ".html", ".html");
    assert (fileName + ".html")[|fileName|..] == ".html";
  }

  /** The first `n` entries whose kind keeps them as rollup input, in order. */
  function Kept<T>(xs: seq<T>, kinds: seq<Kind>, n: nat): (r: seq<T>)
    requires |kinds| == |xs| && n <= |xs|
    ensures |r| <= n
  {
    if n == 0 then []
    else Kept(xs, kinds, n - 1) + (if kinds[n - 1] == OtherEntry then [xs[n - 1]] else [])
  }

  /** The events of the first `n` groups, in order. */
  function Flatten<T>(groups: seq<seq<T>>, n: nat): seq<T>
    requires n <= |groups|
  {
    if n == 0 then [] else Flatten(groups, n - 1) + groups[n - 1]
  }

  /** The UPDATE_FILES sent for each entry, given its path, the file name it registers and its kind. */
  function Registrations(cwd: string, paths: seq<string>, names: seq<string>, kinds: seq<Kind>): (r: seq<seq<ServiceEvent>>)
    requires |paths| == |names| == |kinds|
    ensures |r| == |paths|
  {
    if |paths| == 0 then []
    else [Registration(cwd, paths[0], names[0], kinds[0])] + Registrations(cwd, paths[1..], names[1..], kinds[1..])
  }

  lemma {:induction false} RegistrationsAt(cwd: string, paths: seq<string>, names: seq<string>, kinds: seq<Kind>, i: nat)
    requires |paths| == |names| == |kinds| && i < |paths|
    ensures Registrations(cwd, paths, names, kinds)[i] == Registration(cwd, paths[i], names[i], kinds[i])
  {
    if i > 0 {
      RegistrationsAt(cwd, paths[1..], names[1..], kinds[1..], i - 1);
    }
  }

  /** The paths of an object input, in order. */
  function EntryIds(entries: seq<Entry>): (r: seq<string>)
    ensures |r| == |entries|
  {
    if |entries| == 0 then [] else [entries[0].id] + EntryIds(entries[1..])
  }

  /** The HTML file names an object input registers, in order. */
  function HtmlNames(entries: seq<Entry>): (r: seq<string>)
    ensures |r| == |entries|
  {
    if |entries| == 0 then [] else [HtmlFileName(entries[0].fileName)] + HtmlNames(entries[1..])
  }

  lemma {:induction false} HtmlNamesAt(entries: seq<Entry>, i: nat)
    requires i < |entries|
    ensures HtmlNames(entries)[i] == HtmlFileName(entries[i].fileName)
  {
    if i > 0 {
      HtmlNamesAt(entries[1..], i - 1);
    }
  }

  /** The registrations of an array input: each path is its own file name. */
  function ArrayRegistrations(cwd: string, ids: seq<string>, kinds: seq<Kind>): seq<seq<ServiceEvent>>
    requires |kinds| == |ids|
  {
    Registrations(cwd, ids, ids, kinds)
  }

  /** The registrations of an object input: the key names the HTML file. */
  function ObjectRegistrations(cwd: string, entries: seq<Entry>, kinds: seq<Kind>): seq<seq<ServiceEvent>>
    requires |kinds| == |entries|
  {
    Registrations(cwd, EntryIds(entries), HtmlNames(entries), kinds)
  }

  /** Each entry is either kept or registered once, never both and never neither. */
  lemma {:induction false} Partition<T>(xs: seq<T>, kinds: seq<Kind>, groups: seq<seq<ServiceEvent>>, n: nat)
    requires |kinds| == |xs| == |groups| && n <= |xs|
    requires forall i :: 0 <= i < |groups| ==> (groups[i] == [] <==> kinds[i] == OtherEntry)
    requires forall i :: 0 <= i < |groups| ==> |groups[i]| <= 1
    ensures |Kept(xs, kinds, n)| + |Flatten(groups, n)| == n
  {
    if n > 0 {
      Partition(xs, kinds, groups, n - 1);
    }
  }

  /** Every array entry is either kept or registered once. */
  lemma ArrayPartition(f: PathFilters, cwd: string, ids: seq<string>)
    ensures var kinds := Kinds(f, ids);
      |Kept(ids, kinds, |ids|)| + |Flatten(ArrayRegistrations(cwd, ids, kinds), |ids|)| == |ids|
  {
    var kinds := Kinds(f, ids);
    var groups := ArrayRegistrations(cwd, ids, kinds);
    forall i | 0 <= i < |ids|
      ensures (groups[i] == [] <==> kinds[i] == OtherEntry) && |groups[i]| <= 1
    {
      RegistrationsAt(cwd, ids, ids, kinds, i);
    }
    Partition(ids, kinds, groups, |ids|);
  }

  /** Every object entry is either kept or registered once. */
  lemma ObjectPartition(f: PathFilters, cwd: string, entries: seq<Entry>)
    ensures var kinds := EntryKinds(f, entries);
      |Kept(entries, kinds, |entries|)| + |Flatten(ObjectRegistrations(cwd, entries, kinds), |entries|)| == |entries|
  {
    var kinds := EntryKinds(f, entries);
    var paths, names := EntryIds(entries), HtmlNames(entries);
    var groups := ObjectRegistrations(cwd, entries, kinds);
    forall i | 0 <= i < |entries|
      ensures (groups[i] == [] <==> kinds[i] == OtherEntry) && |groups[i]| <= 1
    {
      RegistrationsAt(cwd, paths, names, kinds, i);
    }
    Partition(entries, kinds, groups, |entries|);
  }

  /** Entries that are neither HTML nor manifests are all kept, in order, and nothing is registered. */
  lemma {:induction false} PlainKept<T>(xs: seq<T>, kinds: seq<Kind>, groups: seq<seq<ServiceEvent>>, n: nat)
    requires |kinds| == |xs| == |groups| && n <= |xs|
    requires forall i :: 0 <= i < |xs| ==> kinds[i] == OtherEntry
    requires forall i :: 0 <= i < |groups| ==> (groups[i] == [] <==> kinds[i] == OtherEntry)
    ensures Kept(xs, kinds, n) == xs[..n]
    ensures Flatten(groups, n) == []
  {
    if n > 0 {
      PlainKept(xs, kinds, groups, n - 1);
      assert xs[..n - 1] + [xs[n - 1]] == xs[..n];
    }
  }

  /** An array input with no HTML and no manifest is passed on unchanged, and nothing is registered. */
  lemma PlainArrayKept(f: PathFilters, cwd: string, ids: seq<string>)
    requires forall i :: 0 <= i < |ids| ==> KindOf(f, ids[i]) == OtherEntry
    ensures Kept(ids, Kinds(f, ids), |ids|) == ids
    ensures Flatten(ArrayRegistrations(cwd, ids, Kinds(f, ids)), |ids|) == []
  {
    var kinds := Kinds(f, ids);
    var groups := ArrayRegistrations(cwd, ids, kinds);
    forall i | 0 <= i < |ids|
      ensures kinds[i] == OtherEntry && groups[i] == []
    {
      KindsAt(f, ids, i);
      RegistrationsAt(cwd, ids, ids, kinds, i);
    }
    PlainKept(ids, kinds, groups, |ids|);
    assert ids[..|ids|] == ids;
  }

  /** Every kept entry is neither HTML nor a manifest. */
  lemma {:induction false} KeptAreOther(f: PathFilters, ids: seq<string>, n: nat)
    requires n <= |ids|
    ensures forall i :: 0 <= i < |Kept(ids, Kinds(f, ids), n)| ==>
      KindOf(f, Kept(ids, Kinds(f, ids), n)[i]) == OtherEntry
  {
    if n > 0 {
      KeptAreOther(f, ids, n - 1);
      KindsAt(f, ids, n - 1);
    }
  }

  /** One more array entry: its registration is sent after the earlier ones, and it is kept if it is plain. */
  lemma ArrayStep(f: PathFilters, cwd: string, ids: seq<string>, i: nat)
    requires i < |ids|
    ensures ArrayRegistrations(cwd, ids, Kinds(f, ids))[i] == Registration(cwd, ids[i], ids[i], KindOf(f, ids[i]))
    ensures Kept(ids, Kinds(f, ids), i + 1) ==
      Kept(ids, Kinds(f, ids), i) + (if KindOf(f, ids[i]) == OtherEntry then [ids[i]] else [])
  {
    KindsAt(f, ids, i);
    RegistrationsAt(cwd, ids, ids, Kinds(f, ids), i);
  }
  lemma ObjectStep(f: PathFilters, cwd: string, entries: seq<Entry>, i: nat)
    requires i < |entries|
    ensures ObjectRegistrations(cwd, entries, EntryKinds(f, entries))[i] ==
      Registration(cwd, entries[i].id, HtmlFileName(entries[i].fileName), KindOf(f, entries[i].id))
    ensures Kept(entries, EntryKinds(f, entries), i + 1) ==
      Kept(entries, EntryKinds(f, entries), i) + (if KindOf(f, entries[i].id) == OtherEntry then [entries[i]] else [])
  {
    EntryAt(f, entries, i);
    HtmlNamesAt(entries, i);
    RegistrationsAt(cwd, EntryIds(entries), HtmlNames(entries), EntryKinds(f, entries), i);
  }


  /** The manifest id for a string input: an HTML path means the manifest.json beside it. */
  function StringInputId(input: string): (r: string)
    ensures Parse(input).ext == ".html" ==> r == Join(Parse(input).dir, "manifest.json")
    ensures Parse(input).ext != ".html" ==> r == input
  {
    var parsed := Parse(input);
    if parsed.ext == ".html" then Join(parsed.dir, "manifest.json") else input
  }

  /** The `input` the hook returns. */
  datatype FinalInput = InputList(list: seq<string>) | InputRecord(record: seq<Entry>)

  // ---------------------------------------------------------------------
  // The plugin's own state
  // ---------------------------------------------------------------------

  class CrxPlugin {
    const cwd: string
    const stubId: string
    const filters: PathFilters
    const builtins: seq<PluginRef>
    var isViteServe: bool
    var builtinPluginsDone: bool
    var viteConfigHook: bool
    var viteConfigResolvedHook: bool
    var viteServerHook: bool
    /** The `files` map exposed on the plugin's api. */
    var files: map<string, CompleteFile>
    /** Every event sent to the root files machine, oldest first. */
    var sent: seq<ServiceEvent>

    /**
     * `chromeExtension(options)`: `made` are the seventeen builtin factory
     * results; only the browser polyfill (the tenth) may be missing.
     */
    constructor (cwd0: string, stubId0: string, filters0: PathFilters, made: seq<Option<PluginRef>>)
      requires |made| == 17
      requires forall i :: 0 <= i < 17 && i != 9 ==> made[i].Some?
      ensures cwd == cwd0 && stubId == stubId0 && filters == filters0 && builtins == Builtins(made)
      ensures |builtins| >= 16
      ensures !isViteServe && !builtinPluginsDone && !viteConfigHook && !viteConfigResolvedHook && !viteServerHook
      ensures files == map[] && sent == []
    {
      BuiltinsCount(made, 9);
      cwd := cwd0;
      stubId := stubId0;
      filters := filters0;
      builtins := Builtins(made);
      isViteServe := false;
      builtinPluginsDone := false;
      viteConfigHook := false;
      viteConfigResolvedHook := false;
      viteServerHook := false;
      files := map[];
      sent := [];
    }

    /** `addBuiltinPlugins`: at most once, place the builtins in the caller's array. */
    method AddBuiltinPlugins(plugins: PluginArray)
      requires |builtins| >= 3
      modifies this`builtinPluginsDone, plugins
      ensures builtinPluginsDone
      ensures old(builtinPluginsDone) ==> plugins.items == old(plugins.items)
      ensures !old(builtinPluginsDone) ==> plugins.items == WithBuiltins(old(plugins.items), builtins, isViteServe)
    {
      if builtinPluginsDone {
        return;
      }
      var validator, xstate, fileWriter := builtins[0], builtins[1], builtins[2];
      var after := builtins[3..];
      ghost var original := plugins.items;
      plugins.items := plugins.items + [validator];
      if isViteServe {
        plugins.items := [fileWriter] + plugins.items;
      }
      plugins.items := [xstate] + plugins.items;
      assert plugins.items == Front(original, builtins, isViteServe);
      var at := FirstRpce(plugins.items) + 1;
      plugins.items := plugins.items[..at] + after + plugins.items[at..];
      builtinPluginsDone := true;
    }

    /** The `config` hook: once only, records serve mode, threads the builtins' results, sends ROOT. */
    method Config(config: ViteConfig, command: string, hooks: seq<ViteConfig -> Option<ViteConfig>>)
      returns (r: Option<ViteConfig>)
      modifies this`viteConfigHook, this`isViteServe, this`sent
      ensures viteConfigHook
      ensures old(viteConfigHook) ==> r.None? && isViteServe == old(isViteServe) && sent == old(sent)
      ensures !old(viteConfigHook) ==> isViteServe == (command == "serve") && r == Some(ThreadConfig(config, hooks))
      ensures !old(viteConfigHook) && r.value.root.Some? ==> sent == old(sent) + [RootEvent(r.value.root.value)]
      ensures !old(viteConfigHook) && r.value.root.None? ==> sent == old(sent)
    {
      if viteConfigHook {
        return None;
      }
      viteConfigHook := true;
      isViteServe := command == "serve";
      var current := config;
      var i := 0;
      while i < |hooks|
        invariant 0 <= i <= |hooks|
        invariant current == ThreadConfig(config, hooks[..i])
      {
        var result := hooks[i](current);
        current := if result.Some? then result.value else current;
        assert hooks[..i + 1][..i] == hooks[..i];
        i := i + 1;
      }
      assert hooks[..i] == hooks;
      if current.root.Some? {
        sent := sent + [RootEvent(current.root.value)];
      }
      r := Some(current);
    }

    /** The `configureServer` hook: once only, collects the builtins' callbacks. */
    method ConfigureServer(results: seq<Option<nat>>) returns (r: Option<ServerCallbacks>)
      modifies this`viteServerHook
      ensures viteServerHook
      ensures old(viteServerHook) ==> r.None?
      ensures !old(viteServerHook) ==> r.Some? && fresh(r.value) && r.value.cbs == Collect(results)
    {
      if viteServerHook {
        return None;
      }
      viteServerHook := true;
      var cbs := new ServerCallbacks(Collect(results));
      r := Some(cbs);
    }

    /** The `configResolved` hook: once only; in serve it places the builtins in vite's array. */
    method ConfigResolved(plugins: PluginArray)
      requires |builtins| >= 3
      modifies this`viteConfigResolvedHook, this`builtinPluginsDone, plugins
      ensures viteConfigResolvedHook
      ensures (old(viteConfigResolvedHook) || !isViteServe) ==>
                plugins.items == old(plugins.items) && builtinPluginsDone == old(builtinPluginsDone)
      ensures !old(viteConfigResolvedHook) && isViteServe && !old(builtinPluginsDone) ==>
                plugins.items == WithBuiltins(old(plugins.items), builtins, true)
      ensures !old(viteConfigResolvedHook) && isViteServe ==> builtinPluginsDone
      ensures !old(viteConfigResolvedHook) && isViteServe && old(builtinPluginsDone) ==> plugins.items == old(plugins.items)
    {
      if viteConfigResolvedHook {
        return;
      }
      viteConfigResolvedHook := true;
      if isViteServe {
        AddBuiltinPlugins(plugins);
      }
    }

    /** The `forEach` callback for one array entry: the registration it sends, if any, and whether it is kept. */
    method VisitPath(id: string) returns (events: seq<ServiceEvent>, keep: bool)
      ensures events == Registration(cwd, id, id, KindOf(filters, id))
      ensures keep <==> KindOf(filters, id) == OtherEntry
    {
      var kind := KindOf(filters, id);
      events := Registration(cwd, id, id, kind);
      keep := kind == OtherEntry;
    }

    /** The `forEach` callback for the `i`-th object entry: the registration it sends, if any, and whether it is kept. */
    method VisitEntry(entries: seq<Entry>, i: nat) returns (events: seq<ServiceEvent>, keep: bool)
      requires i < |entries|
      ensures events == Registration(cwd, entries[i].id, HtmlFileName(entries[i].fileName), KindOf(filters, entries[i].id))
      ensures keep <==> KindOf(filters, entries[i].id) == OtherEntry
    {
      var entry := entries[i];
      var kind := KindOf(filters, entry.id);
      events := Registration(cwd, entry.id, HtmlFileName(entry.fileName), kind);
      keep := kind == OtherEntry;
    }

    /** The `options` hook for an array input. */
    method OptionsArray(ids: seq<string>) returns (finalInput: FinalInput)
      modifies this`sent
      ensures sent == old(sent) + Flatten(ArrayRegistrations(cwd, ids, Kinds(filters, ids)), |ids|)
      ensures var kept := Kept(ids, Kinds(filters, ids), |ids|);
        finalInput == InputList(if |kept| > 0 then kept else [stubId])
    {
      ghost var kinds := Kinds(filters, ids);
      ghost var groups := ArrayRegistrations(cwd, ids, kinds);
      var result: seq<string> := [];
      var out: seq<ServiceEvent> := [];
      var i := 0;
      while i < |ids|
        invariant 0 <= i <= |ids|
        invariant result == Kept(ids, kinds, i)
        invariant out == Flatten(groups, i)
        invariant sent == old(sent)
      {
        ArrayStep(filters, cwd, ids, i);
        var events, keep := VisitPath(ids[i]);
        out := out + events;
        if keep {
          result := result + [ids[i]];
        }
        i := i + 1;
      }
      sent := sent + out;
      finalInput := if |result| > 0 then InputList(result) else InputList([stubId]);
    }

    /** The `forEach` over an object input: the registrations in order and the kept entries. */
    method ScanEntries(entries: seq<Entry>) returns (events: seq<ServiceEvent>, kept: seq<Entry>)
      ensures events == Flatten(ObjectRegistrations(cwd, entries, EntryKinds(filters, entries)), |entries|)
      ensures kept == Kept(entries, EntryKinds(filters, entries), |entries|)
    {
      ghost var kinds := EntryKinds(filters, entries);
      ghost var groups := ObjectRegistrations(cwd, entries, kinds);
      events, kept := [], [];
      var i := 0;
      while i < |entries|
        invariant 0 <= i <= |entries|
        invariant kept == Kept(entries, kinds, i)
        invariant events == Flatten(groups, i)
      {
        ObjectStep(filters, cwd, entries, i);
        var registered, keep := VisitEntry(entries, i);
        events := events + registered;
        if keep {
          kept := kept + [entries[i]];
        }
        i := i + 1;
      }
    }

    /** The `options` hook for an object input. */
    method OptionsObject(entries: seq<Entry>) returns (finalInput: FinalInput)
      modifies this`sent
      ensures sent == old(sent) + Flatten(ObjectRegistrations(cwd, entries, EntryKinds(filters, entries)), |entries|)
      ensures var kept := Kept(entries, EntryKinds(filters, entries), |entries|);
        finalInput == if |kept| > 0 then InputRecord(kept) else InputList([stubId])
    {
      var events, kept := ScanEntries(entries);
      sent := sent + events;
      finalInput := if |kept| > 0 then InputRecord(kept) else InputList([stubId]);
    }

    /** The `options` hook for a string input: the manifest is registered, the stub becomes the input. */
    method OptionsString(input: string) returns (finalInput: FinalInput)
      modifies this`sent
      ensures sent == old(sent) + [UpdateFiles([BaseAsset(AbsolutePath(cwd, StringInputId(input)), "manifest.json", MANIFEST)])]
      ensures finalInput == InputList([stubId])
    {
      var id := StringInputId(input);
      sent := sent + [UpdateFiles([BaseAsset(AbsolutePath(cwd, id), "manifest.json", MANIFEST)])];
      finalInput := InputList([stubId]);
    }

    /**
     * The `options` hook: dispatch on the input's shape (an absent input is
     * the empty array). `others` are the options besides `input` and
     * `plugins`; they are passed on beside the new input, and `plugins` is
     * the array the builtins were placed in.
     */
    method Options(input: Input, others: map<string, Json>, plugins: PluginArray)
      returns (finalInput: FinalInput, passedOn: map<string, Json>)
      requires |builtins| >= 3
      modifies this`sent, this`builtinPluginsDone, plugins
      ensures passedOn == others
      ensures input.InputString? ==> finalInput == InputList([stubId])
      ensures input.InputString? ==>
                sent == old(sent) + [UpdateFiles([BaseAsset(AbsolutePath(cwd, StringInputId(input.path)), "manifest.json", MANIFEST)])]
      ensures input.InputArray? ==>
                sent == old(sent) + Flatten(ArrayRegistrations(cwd, input.paths, Kinds(filters, input.paths)), |input.paths|)
      ensures input.InputObject? ==>
                sent == old(sent) + Flatten(ObjectRegistrations(cwd, input.entries, EntryKinds(filters, input.entries)), |input.entries|)
      ensures builtinPluginsDone == (old(builtinPluginsDone) || !isViteServe)
      ensures input.InputArray? ==> var kept := Kept(input.paths, Kinds(filters, input.paths), |input.paths|);
        finalInput == InputList(if |kept| > 0 then kept else [stubId])
      ensures input.InputObject? ==> var kept := Kept(input.entries, EntryKinds(filters, input.entries), |input.entries|);
        finalInput == if |kept| > 0 then InputRecord(kept) else InputList([stubId])
      ensures !isViteServe && !old(builtinPluginsDone) ==>
                plugins.items == WithBuiltins(old(plugins.items), builtins, false)
      ensures (isViteServe || old(builtinPluginsDone)) ==> plugins.items == old(plugins.items)
    {
      match input {
        case InputString(path) => finalInput := OptionsString(path);
        case InputArray(paths) => finalInput := OptionsArray(paths);
        case InputObject(entries) => finalInput := OptionsObject(entries);
      }
      BuildOnly(plugins);
      passedOn := others;
    }

    /** In a rollup build (not vite serve) `options` places the builtins in rollup's plugin array. */
    method BuildOnly(plugins: PluginArray)
      requires |builtins| >= 3
      modifies this`builtinPluginsDone, plugins
      ensures !isViteServe && !old(builtinPluginsDone) ==>
                plugins.items == WithBuiltins(old(plugins.items), builtins, false)
      ensures (isViteServe || old(builtinPluginsDone)) ==> plugins.items == old(plugins.items)
      ensures !isViteServe ==> builtinPluginsDone
      ensures isViteServe ==> builtinPluginsDone == old(builtinPluginsDone)
    {
      if !isViteServe {
        AddBuiltinPlugins(plugins);
      }
    }

    /** `resolveId`: only the stub id is claimed. */
    function ResolveId(id: string): (r: Option<string>)
      reads this
      ensures r.Some? <==> id == stubId
      ensures r.Some? ==> r.value == id
    {
      if id == stubId then Some(id) else None
    }

    /** `load`: only the stub id has code, a log line naming it. */
    function Load(id: string): (r: Option<string>)
      reads this
      ensures r.Some? <==> id == stubId
      ensures r.Some? ==> r.value == "console.log('" + stubId + "')"
    {
      if id == stubId then Some("console.log('" + stubId + "')") else None
    }

    /** `generateBundle`'s first step: the stub's output chunk is removed, everything else stays. */
    function WithoutStub<T>(bundle: map<string, T>): (r: map<string, T>)
      reads this
      ensures stubId + ".js" !in r
      ensures forall k :: k in bundle && k != stubId + ".js" ==> k in r && r[k] == bundle[k]
      ensures forall k :: k in r ==> k in bundle
    {
      bundle - {stubId + ".js"}
    }

    /** `watchChange`: the files map is emptied before CHANGE is sent. */
    method WatchChange(id: string, change: ChangeKind)
      modifies this`files, this`sent
      ensures files == map[]
      ensures sent == old(sent) + [ChangeEvent(id, change)]
    {
      files := map[];
      sent := sent + [ChangeEvent(id, change)];
    }
  }

  /** The config after each builtin's hook: a result replaces it, no result keeps it. */
  function ThreadConfig(config: ViteConfig, hooks: seq<ViteConfig -> Option<ViteConfig>>): ViteConfig
    decreases |hooks|
  {
    if |hooks| == 0 then config
    else
      var before := ThreadConfig(config, hooks[..|hooks| - 1]);
      var result := hooks[|hooks| - 1](before);
      if result.Some? then result.value else before
  }

  /** Hooks that return nothing leave the config as it was. */
  lemma {:induction false} SilentHooksKeepConfig(config: ViteConfig, hooks: seq<ViteConfig -> Option<ViteConfig>>)
    requires forall i, c :: 0 <= i < |hooks| ==> hooks[i](c).None?
    ensures ThreadConfig(config, hooks) == config
    decreases |hooks|
  {
    if |hooks| > 0 {
      SilentHooksKeepConfig(config, hooks[..|hooks| - 1]);
    }
  }
}
