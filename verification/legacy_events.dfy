/**
 * The older event model (src/xstate-models.ts), still imported by parts
 * of the plugin: SCRIPT where the newer model has MODULE, and an ADD_FILE
 * creator that passes its options through without normalising paths.
 */
module LegacyEvents {
  import opened Common
  import opened SharedEvents

  /** The older nine file types, in declaration order. */
  const LegacyFileTypes: seq<FileType> :=
    [CSS, HTML, IMAGE, JSON, MANIFEST, RAW, SCRIPT, BACKGROUND, CONTENT]

  predicate IsLegacyScript(fileType: FileType)
  {
    fileType == BACKGROUND || fileType == CONTENT || fileType == SCRIPT
  }

  /** The older list has nine distinct entries and differs from the newer one only at SCRIPT/MODULE. */
  lemma LegacyFileTypesShape()
    ensures |LegacyFileTypes| == 9 == |FileTypes|
    ensures forall i, j :: 0 <= i < j < |LegacyFileTypes| ==> LegacyFileTypes[i] != LegacyFileTypes[j]
    ensures SCRIPT in LegacyFileTypes && MODULE !in LegacyFileTypes
    ensures forall i :: 0 <= i < 9 && i != 6 ==> LegacyFileTypes[i] == FileTypes[i]
    ensures LegacyFileTypes[6] == SCRIPT && FileTypes[6] == MODULE
  {
  }

  /** The two isScript predicates agree except on SCRIPT and MODULE. */
  lemma {:induction false} ScriptPredicatesAgree(fileType: FileType)
    ensures IsLegacyScript(fileType) <==> fileType in LegacyFileTypes[6..]
    ensures fileType != SCRIPT && fileType != MODULE ==> (IsLegacyScript(fileType) <==> IsScript(fileType))
  {
    assert LegacyFileTypes[6..] == [SCRIPT, BACKGROUND, CONTENT];
  }

  /** The older ADD_FILE: the options are the event payload, unchanged. */
  function LegacyAddFileEvent(file: BaseAsset): (e: SharedEvent)
    ensures e.AddFile? && e.file == file
  {
    AddFile(file)
  }

  /** Both ADD_FILE creators agree exactly on files whose paths are already posix. */
  lemma AddFileCreatorsAgree(file: BaseAsset)
    ensures LegacyAddFileEvent(file) == AddFileEvent(file)
      <==> ('\\' !in file.id && '\\' !in file.fileName)
  {
    if '\\' !in file.id && '\\' !in file.fileName {
      NormalizePathIdempotent(file.id);
      NormalizePathIdempotent(file.fileName);
    }
  }
}
