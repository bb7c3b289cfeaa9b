/**
 * The wrapper file names of the manifest input (src/manifest-input/fileNames.ts):
 * the same derivation as the ESM background plugin's, reached either from a
 * given file name or from a source directory and a path inside it.
 */
module WrapperFileNames {
  import opened Common
  import opened Paths
  import EsmBackground

  const EsmImportWrapperFileNameExt := ".esm-wrapper.js"

  /** The argument of `generateWrapperFileNames`: a file name, or a directory and a path to make relative to it. */
  datatype WrapperSource = Given(fileName: string) | FromDirs(srcDir: string, srcPath: string)

  datatype Names = Names(jsFileName: string, wrapperFileName: string, fileName: string)

  /**
   * `generateWrapperFileNames`: the resolved input name with its wrapper and
   * `.js` names beside it. `path.relative` is a parameter.
   */
  function GenerateWrapperFileNames(x: WrapperSource, relative: (string, string) -> string): (r: Names)
    ensures x.Given? ==> r.fileName == x.fileName
    ensures x.FromDirs? ==> r.fileName == relative(x.srcDir, x.srcPath)
    ensures r.wrapperFileName == EsmBackground.WrapperFileName(r.fileName)
    ensures r.jsFileName == EsmBackground.GenerateFileNames(r.fileName).outputFileName
  {
    var fileName := match x
      case Given(f) => f
      case FromDirs(srcDir, srcPath) => relative(srcDir, srcPath);
    var q := Parse(fileName);
    Names(Join(q.dir, q.name + ".js"), Join(q.dir, q.name + EsmImportWrapperFileNameExt), fileName)
  }

  /** `getImportWrapperFileName`: the wrapper name of a given file name. */
  function GetImportWrapperFileName(fileName: string): (r: string)
    ensures r == EsmBackground.WrapperFileName(fileName)
  {
    GenerateWrapperFileNames(Given(fileName), (a, b) => b).wrapperFileName
  }

  /** A given file name does not depend on how relative paths are computed. */
  lemma GivenIgnoresRelative(fileName: string, rel1: (string, string) -> string, rel2: (string, string) -> string)
    ensures GenerateWrapperFileNames(Given(fileName), rel1) == GenerateWrapperFileNames(Given(fileName), rel2)
    ensures GenerateWrapperFileNames(Given(fileName), rel1).wrapperFileName == GetImportWrapperFileName(fileName)
  {
  }

  /** Both derived names keep the input's name and, when it has a plain one, its directory. */
  lemma NamesShape(x: WrapperSource, relative: (string, string) -> string)
    ensures var r := GenerateWrapperFileNames(x, relative); var q := Parse(r.fileName);
      && Base(r.wrapperFileName) == q.name + EsmImportWrapperFileNameExt
      && Base(r.jsFileName) == q.name + ".js"
      && (q.dir != "" && q.dir != "." && !EndsWith(q.dir, "/") ==>
            Dir(r.wrapperFileName) == q.dir && Dir(r.jsFileName) == q.dir)
  {
    EsmBackground.FileNamesShape(GenerateWrapperFileNames(x, relative).fileName);
  }
}
