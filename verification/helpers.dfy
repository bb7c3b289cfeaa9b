/**
 * The small helpers of src/helpers.ts and src/helpers.js: predicate
 * negation, zipping two arrays by index, the asset-path mappers, and where
 * an HTML file is written.
 */
module Helpers {
  import opened Common
  import opened Paths

  /** `not(fn)`: the negated predicate. */
  function Not<T(!new)>(fn: T -> bool): (r: T -> bool)
    ensures forall x :: r(x) == !fn(x)
  {
    x => !fn(x)
  }

  /** Negating twice gives the predicate back, pointwise. */
  lemma NotNot<T(!new)>(fn: T -> bool, x: T)
    ensures Not(Not(fn))(x) == fn(x)
  {
  }

  /**
   * `zipArrays(a1, a2)`: one pair per element of `a1`, its second component
   * the element of `a2` at the same index, `None` (undefined) past the end of `a2`.
   */
  function ZipArrays<T, X>(a1: seq<T>, a2: seq<X>): (r: seq<(T, Option<X>)>)
    ensures |r| == |a1|
  {
    if |a1| == 0 then []
    else
      var i := |a1| - 1;
      ZipArrays(a1[..i], a2) + [(a1[i], if i < |a2| then Some(a2[i]) else None)]
  }

  /** The i-th pair is (a1[i], a2[i]). */
  lemma {:induction false} ZipArraysAt<T, X>(a1: seq<T>, a2: seq<X>, i: nat)
    requires i < |a1|
    ensures ZipArrays(a1, a2)[i].0 == a1[i]
    ensures ZipArrays(a1, a2)[i].1 == (if i < |a2| then Some(a2[i]) else None)
    decreases |a1|
  {
    if i < |a1| - 1 {
      ZipArraysAt(a1[..|a1| - 1], a2, i);
    }
  }

  /** Elements of `a2` past the length of `a1` are ignored. */
  lemma ZipArraysIgnoresExtra<T, X>(a1: seq<T>, a2: seq<X>, extra: seq<X>)
    requires |a1| <= |a2|
    ensures ZipArrays(a1, a2 + extra) == ZipArrays(a1, a2)
  {
    forall i | 0 <= i < |a1|
      ensures ZipArrays(a1, a2 + extra)[i] == ZipArrays(a1, a2)[i]
    {
      ZipArraysAt(a1, a2 + extra, i);
      ZipArraysAt(a1, a2, i);
    }
  }

  /** A value a mapper is applied to: a string, or anything else. */
  datatype Value = Str(s: string) | NonString(tag: nat)

  /** The mapper built for one asset: the asset's path and the file name rollup gave it. */
  datatype Mapper = Mapper(assetPath: string, assetFileName: string)

  /**
   * Applying a mapper: a non-string is returned as is; a string that the
   * asset path ends with becomes the asset's file name; any other string
   * is returned as is.
   */
  function Apply(m: Mapper, x: Value): (r: Value)
    ensures x.NonString? ==> r == x
    ensures x.Str? && EndsWith(m.assetPath, x.s) ==> r == Str(m.assetFileName)
    ensures x.Str? && !EndsWith(m.assetPath, x.s) ==> r == x
  {
    match x
    case NonString(_) => x
    case Str(s) => if EndsWith(m.assetPath, s) then Str(m.assetFileName) else x
  }

  /** The whole asset path, and so its base name, are mapped to the asset's file name. */
  lemma MapperMatchesPath(m: Mapper)
    ensures Apply(m, Str(m.assetPath)) == Str(m.assetFileName)
    ensures Apply(m, Str(Base(m.assetPath))) == Str(m.assetFileName)
  {
    var p := m.assetPath;
    assert p[|p| - |p|..] == p;
    match LastIndexOf(p, '/')
    case None =>
    case Some(k) =>
      assert p[|p| - |Base(p)|..] == p[k + 1..];
  }

  /** An asset as `getAssetPathMapFns` receives it: its path and its contents. */
  datatype Asset = Asset(assetPath: string, assetSrc: seq<bv8>)

  /**
   * `getAssetPathMapFns`: one mapper per asset, in asset order. Emitting the
   * asset under its base name and asking for its file name are plugin-context
   * calls, together the parameter `emittedFileName`.
   */
  function GetAssetPathMapFns(assets: seq<Asset>, emittedFileName: (string, seq<bv8>) -> string): (r: seq<Mapper>)
    ensures |r| == |assets|
  {
    if |assets| == 0 then []
    else
      var a := assets[|assets| - 1];
      GetAssetPathMapFns(assets[..|assets| - 1], emittedFileName) + [Mapper(a.assetPath, emittedFileName(Base(a.assetPath), a.assetSrc))]
  }

  /** The i-th mapper belongs to the i-th asset. */
  lemma {:induction false} GetAssetPathMapFnsAt(assets: seq<Asset>, emittedFileName: (string, seq<bv8>) -> string, i: nat)
    requires i < |assets|
    ensures GetAssetPathMapFns(assets, emittedFileName)[i].assetPath == assets[i].assetPath
    ensures GetAssetPathMapFns(assets, emittedFileName)[i].assetFileName == emittedFileName(Base(assets[i].assetPath), assets[i].assetSrc)
    decreases |assets|
  {
    if i < |assets| - 1 {
      GetAssetPathMapFnsAt(assets[..|assets| - 1], emittedFileName, i);
    }
  }

  /** `writeFile(dest)`: where an HTML file is written, its base name joined onto `dest`. */
  function WriteFileDestination(dest: string, htmlPath: string): string
  {
    Join(dest, Base(htmlPath))
  }

  /** The written file keeps the HTML file's base name, inside `dest` when that is a plain directory. */
  lemma WriteFileDestinationShape(dest: string, htmlPath: string)
    requires Base(htmlPath) != ""
    ensures Base(WriteFileDestination(dest, htmlPath)) == Base(htmlPath)
    ensures dest != "" && dest != "." && !EndsWith(dest, "/") ==> Dir(WriteFileDestination(dest, htmlPath)) == dest
  {
    BaseHasNoSeparator(htmlPath);
    JoinName(dest, Base(htmlPath));
  }
}
