/**
 * The checks and normalisation `regenerateBundle`
 * (src/mixed-format/regenerateBundle.ts) applies before it rebuilds a
 * bundle with rollup: the options are validated, an empty input
 * short-circuits, and an input array becomes an input object. The rollup
 * build itself is not part of this model.
 */
module RegenerateBundle {
  import opened Common
  import opened Paths

  /** `options.input`: undefined, a string, a string array or an object of names to paths. */
  datatype InputOption = UndefinedInput | InputString(s: string) | InputArray(paths: seq<string>) | InputObject(entries: map<string, string>)

  /** `options.output`: absent (or falsy), an array, or one output options object. */
  datatype OutputOption = NoOutput | OutputArray | Output(chunkFileNames: Option<string>)

  /** What the function goes on to do: return `{}` at once, or build with this input and chunk file name pattern. */
  datatype Plan = EmptyBundle | Build(input: InputOption, chunkFileNames: string)

  const OutputError := "options.output must be an OutputOptions object"
  const InputError := "options.input should be an object, string array or string"

  /** The key an input path gets: its directory joined with its name, the extension dropped. */
  function EntryKey(path: string): string
  {
    var q := Parse(path);
    Join(q.dir, q.name)
  }

  /** The `reduce` that turns an input array into an object; a later path with the same key wins. */
  function ToInputObject(paths: seq<string>): (r: map<string, string>)
  {
    if |paths| == 0 then map[]
    else
      var last := paths[|paths| - 1];
      ToInputObject(paths[..|paths| - 1])[EntryKey(last) := last]
  }

  /** The object has one key per distinct entry key, and each key maps back to a path with that key. */
  lemma {:induction false} ToInputObjectKeys(paths: seq<string>)
    ensures ToInputObject(paths).Keys == set p | p in paths :: EntryKey(p)
    ensures forall k :: k in ToInputObject(paths) ==> ToInputObject(paths)[k] in paths && EntryKey(ToInputObject(paths)[k]) == k
    decreases |paths|
  {
    if |paths| > 0 {
      var init := paths[..|paths| - 1];
      ToInputObjectKeys(init);
      assert paths == init + [paths[|paths| - 1]];
    }
  }

  /** A path that no later path shares a key with is the value of its key: later duplicates win. */
  lemma {:induction false} ToInputObjectLastWins(paths: seq<string>, i: nat)
    requires i < |paths|
    requires forall j :: i < j < |paths| ==> EntryKey(paths[j]) != EntryKey(paths[i])
    ensures EntryKey(paths[i]) in ToInputObject(paths) && ToInputObject(paths)[EntryKey(paths[i])] == paths[i]
    decreases |paths|
  {
    if i < |paths| - 1 {
      var init := paths[..|paths| - 1];
      ToInputObjectLastWins(init, i);
    }
  }

  /** `path.join(path.dirname(cfn), '[name].js')`, with `cfn` defaulting to ''. */
  function ChunkFileNames(cfn: Option<string>): string
  {
    var pattern := if cfn.Some? then cfn.value else "";
    Join(Dirname(pattern), "[name].js")
  }

  /** Without a pattern the chunks are named "[name].js". */
  lemma DefaultChunkFileNames()
    ensures ChunkFileNames(None) == "[name].js"
  {
  }

  /** The plugin's own chunk pattern "modules/[name]-[hash].js" becomes "modules/[name].js". */
  lemma ModulesChunkFileNames()
    ensures ChunkFileNames(Some("modules/[name]-[hash].js")) == "modules/[name].js"
  {
    var p := "modules/[name]-[hash].js";
    LastIndexOfIs(p, '/', 7);
    assert Dir(p) == "modules";
  }

  /**
   * The checks in order: the output first, then the input; an empty input
   * array returns `{}` without building; otherwise an input array is
   * turned into an object and any other input is passed on as it is.
   */
  function Prepare(input: InputOption, output: OutputOption): (r: Result<Plan, string>)
    ensures output.NoOutput? || output.OutputArray? ==> r == Err(OutputError)
    ensures output.Output? && input.UndefinedInput? ==> r == Err(InputError)
    ensures r.Err? ==> output.NoOutput? || output.OutputArray? || input.UndefinedInput?
    ensures r == Ok(EmptyBundle) <==> output.Output? && input == InputArray([])
    ensures r.Ok? && r.value.Build? ==>
      && output.Output?
      && r.value.chunkFileNames == ChunkFileNames(output.chunkFileNames)
      && (input.InputArray? ==> r.value.input == InputObject(ToInputObject(input.paths)))
      && (input.InputString? || input.InputObject? ==> r.value.input == input)
  {
    if output.NoOutput? || output.OutputArray? then Err(OutputError)
    else if input.UndefinedInput? then Err(InputError)
    else if input == InputArray([]) then Ok(EmptyBundle)
    else
      var value := if input.InputArray? then InputObject(ToInputObject(input.paths)) else input;
      Ok(Build(value, ChunkFileNames(output.chunkFileNames)))
  }
}
