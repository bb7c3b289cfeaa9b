/**
 * Values shared by every module of the model: the optional and fallible
 * results the JavaScript code expresses with `undefined` and thrown errors,
 * a JSON document type for manifest sources, and the string operations the
 * source takes from the JavaScript runtime (`startsWith`, `endsWith`,
 * `join`, `replace`, lodash `capitalize`).
 */
module Common {

  /** `undefined` (None) or a value (Some). */
  datatype Option<+T> = None | Some(value: T)

  /** A value, or the message of the error the source throws instead. */
  datatype Result<+T, +E> = Ok(value: T) | Err(error: E)

  /** A parsed JSON document, as the manifest source holds it after loading. */
  datatype Json =
    | JNull
    | JBool(b: bool)
    | JNum(n: int)
    | JStr(s: string)
    | JArr(items: seq<Json>)
    | JObj(fields: seq<(string, Json)>)

  /** JavaScript truthiness of a JSON value (`if (result)` in the source). */
  predicate Truthy(j: Json)
  {
    match j
    case JNull => false
    case JBool(b) => b
    case JNum(n) => n != 0
    case JStr(s) => s != ""
    case JArr(_) => true
    case JObj(_) => true
  }

  predicate StartsWith(s: string, prefix: string)
  {
    |prefix| <= |s| && s[..|prefix|] == prefix
  }

  /** Concatenation regroups freely. */
  lemma AppendAssoc<T>(a: seq<T>, b: seq<T>, c: seq<T>)
    ensures a + (b + c) == (a + b) + c
  {
  }

  /** `StartsWith` spelled character by character, for use where a literal prefix is tested. */
  predicate HasPrefix(s: string, prefix: string)
    decreases prefix
  {
    |prefix| == 0 || (|s| > 0 && s[0] == prefix[0] && HasPrefix(s[1..], prefix[1..]))
  }

  lemma {:induction false} HasPrefixIsStartsWith(s: string, prefix: string)
    decreases prefix
    ensures HasPrefix(s, prefix) <==> StartsWith(s, prefix)
  {
    if |prefix| > 0 && |s| > 0 {
      HasPrefixIsStartsWith(s[1..], prefix[1..]);
      if |prefix| <= |s| {
        assert s[..|prefix|] == [s[0]] + s[1..][..|prefix| - 1];
        assert prefix == [prefix[0]] + prefix[1..];
      }
    }
  }

  /** `EndsWith` spelled character by character, for use where a literal suffix is tested. */
  predicate HasSuffix(s: string, suffix: string)
    decreases suffix
  {
    |suffix| == 0 || (|s| > 0 && s[|s| - 1] == suffix[|suffix| - 1] && HasSuffix(s[..|s| - 1], suffix[..|suffix| - 1]))
  }

  lemma {:induction false} HasSuffixIsEndsWith(s: string, suffix: string)
    decreases suffix
    ensures HasSuffix(s, suffix) <==> EndsWith(s, suffix)
  {
    if |suffix| > 0 && |s| > 0 {
      var s', t' := s[..|s| - 1], suffix[..|suffix| - 1];
      HasSuffixIsEndsWith(s', t');
      if |suffix| <= |s| {
        assert s[|s| - |suffix|..] == s'[|s'| - |t'|..] + [s[|s| - 1]];
        assert suffix == t' + [suffix[|suffix| - 1]];
      }
    }
  }

  predicate EndsWith(s: string, suffix: string)
  {
    |suffix| <= |s| && s[|s| - |suffix|..] == suffix
  }

  /** `tok` occurs in `s` starting at index `i`. */
  predicate OccursAt(s: string, tok: string, i: int)
  {
    0 <= i && i + |tok| <= |s| && s[i..i + |tok|] == tok
  }

  predicate Occurs(s: string, tok: string)
  {
    exists i | 0 <= i <= |s| :: OccursAt(s, tok, i)
  }

  /** `Array.prototype.join(sep)` on an array of strings. */
  function JoinWith(parts: seq<string>, sep: string): (r: string)
    ensures |parts| == 0 ==> r == ""
    ensures |parts| == 1 ==> r == parts[0]
    ensures |parts| > 1 ==> r == JoinWith(parts[..|parts| - 1], sep) + sep + parts[|parts| - 1]
  {
    if |parts| == 0 then ""
    else if |parts| == 1 then parts[0]
    else JoinWith(parts[..|parts| - 1], sep) + sep + parts[|parts| - 1]
  }

  function DigitChar(d: nat): (c: char)
    requires d < 10
    ensures '0' <= c <= '9'
  {
    (48 + d) as char
  }

  /** The decimal rendering of a non-negative number (template-literal interpolation). */
  function NatToString(n: nat): (r: string)
    ensures |r| > 0
    ensures forall i :: 0 <= i < |r| ==> '0' <= r[i] <= '9'
    ensures n < 10 <==> |r| == 1
  {
    if n < 10 then [DigitChar(n)] else NatToString(n / 10) + [DigitChar(n % 10)]
  }

  function UpperChar(c: char): char
  {
    if 'a' <= c <= 'z' then (c as int - 32) as char else c
  }

  function LowerChar(c: char): char
  {
    if 'A' <= c <= 'Z' then (c as int + 32) as char else c
  }

  /** lodash `capitalize`: the first character upper-case, the rest lower-case. */
  function Capitalize(s: string): (r: string)
    ensures |r| == |s|
    ensures |s| > 0 ==> r[0] == UpperChar(s[0])
    ensures forall i :: 0 < i < |s| ==> r[i] == LowerChar(s[i])
  {
    if |s| == 0 then "" else [UpperChar(s[0])] + seq(|s| - 1, i requires 0 <= i < |s| - 1 => LowerChar(s[i + 1]))
  }

  /** The least index at which `tok` occurs in `s`, if any. */
  function FindFirst(s: string, tok: string): (r: Option<nat>)
    ensures r.Some? ==> OccursAt(s, tok, r.value)
    ensures r.Some? ==> forall j :: 0 <= j < r.value ==> !OccursAt(s, tok, j)
    ensures r.None? ==> !Occurs(s, tok)
    decreases |s|
  {
    if |s| < |tok| then None
    else if s[..|tok|] == tok then Some(0)
    else
      match FindFirst(s[1..], tok)
      case None =>
        assert forall i :: OccursAt(s, tok, i) ==> i == 0 || OccursAt(s[1..], tok, i - 1) by {
          forall i | OccursAt(s, tok, i) && i != 0 ensures OccursAt(s[1..], tok, i - 1) {
            assert s[1..][i - 1..i - 1 + |tok|] == s[i..i + |tok|];
          }
        }
        None
      case Some(k) =>
        assert OccursAt(s, tok, k + 1) by { assert s[1..][k..k + |tok|] == s[k + 1..k + 1 + |tok|]; }
        assert forall j :: 1 <= j < k + 1 ==> !OccursAt(s, tok, j) by {
          forall j | 1 <= j < k + 1 && OccursAt(s, tok, j) ensures false {
            assert s[1..][j - 1..j - 1 + |tok|] == s[j..j + |tok|];
            assert OccursAt(s[1..], tok, j - 1);
          }
        }
        Some(k + 1)
  }

  /**
   * `String.prototype.replace` with a string pattern: only the first
   * occurrence of `tok` is replaced.
   */
  function ReplaceFirst(s: string, tok: string, rep: string): (r: string)
    ensures FindFirst(s, tok).None? ==> r == s
    ensures FindFirst(s, tok).Some? ==>
      var i := FindFirst(s, tok).value; r == s[..i] + rep + s[i + |tok|..]
  {
    match FindFirst(s, tok)
    case None => s
    case Some(i) => s[..i] + rep + s[i + |tok|..]
  }

  /**
   * `String.prototype.replace` with a global regular expression that matches
   * `tok` literally: occurrences are found left to right and do not overlap.
   */
  function ReplaceAll(s: string, tok: string, rep: string): string
    requires |tok| > 0
    decreases |s|
  {
    if |s| < |tok| then s
    else if s[..|tok|] == tok then rep + ReplaceAll(s[|tok|..], tok, rep)
    else [s[0]] + ReplaceAll(s[1..], tok, rep)
  }

  /** A string in which `tok` never occurs is left unchanged. */
  lemma {:induction false} ReplaceAllAbsent(s: string, tok: string, rep: string)
    requires |tok| > 0
    requires !Occurs(s, tok)
    ensures ReplaceAll(s, tok, rep) == s
    decreases |s|
  {
    if |s| >= |tok| {
      assert !OccursAt(s, tok, 0);
      if exists j :: OccursAt(s[1..], tok, j) {
        var j :| OccursAt(s[1..], tok, j);
        assert s[1..][j..j + |tok|] == s[j + 1..j + 1 + |tok|];
        assert OccursAt(s, tok, j + 1);
      }
      ReplaceAllAbsent(s[1..], tok, rep);
      assert [s[0]] + s[1..] == s;
    }
  }

  /**
   * If a prefix of the output of ReplaceAll consists only of characters of
   * `tok` and the replacement shares no character with `tok`, that prefix was
   * copied from the input unchanged.
   */
  lemma {:induction false} ReplaceAllPrefixCopied(s: string, tok: string, rep: string, k: nat)
    requires |tok| > 0 && |rep| > 0
    requires forall c :: c in rep ==> c !in tok
    requires k <= |ReplaceAll(s, tok, rep)|
    ensures (forall i :: 0 <= i < k ==> ReplaceAll(s, tok, rep)[i] in tok) ==>
              k <= |s| && ReplaceAll(s, tok, rep)[..k] == s[..k]
    decreases |s|
  {
    var out := ReplaceAll(s, tok, rep);
    if k == 0 || |s| < |tok| {
    } else if s[..|tok|] == tok {
      assert out[0] == rep[0] && rep[0] in rep;
    } else {
      var rest := ReplaceAll(s[1..], tok, rep);
      assert out == [s[0]] + rest;
      ReplaceAllPrefixCopied(s[1..], tok, rep, k - 1);
      if forall i :: 0 <= i < k ==> out[i] in tok {
        forall i | 0 <= i < k - 1 ensures rest[i] in tok {
          assert rest[i] == out[i + 1];
        }
        assert out[..k] == [s[0]] + rest[..k - 1];
        assert s[..k] == [s[0]] + s[1..][..k - 1];
      }
    }
  }

  /** An occurrence that starts after `pre` lies wholly in `rest`. */
  lemma NoTokenPastPrefix(pre: string, rest: string, tok: string)
    requires !Occurs(rest, tok)
    ensures forall j :: |pre| <= j ==> !OccursAt(pre + rest, tok, j)
  {
    var out := pre + rest;
    forall j | |pre| <= j && j + |tok| <= |out| ensures !OccursAt(out, tok, j) {
      assert out[j..j + |tok|] == rest[j - |pre|..j - |pre| + |tok|];
      assert !OccursAt(rest, tok, j - |pre|);
    }
  }

  /** A replacement sharing no character with `tok`, followed by a string without `tok`, has no `tok`. */
  lemma NoTokenAfterReplacement(rep: string, rest: string, tok: string)
    requires |tok| > 0 && |rep| > 0
    requires forall c :: c in rep ==> c !in tok
    requires !Occurs(rest, tok)
    ensures !Occurs(rep + rest, tok)
  {
    var out := rep + rest;
    NoTokenPastPrefix(rep, rest, tok);
    forall j | 0 <= j < |rep| ensures !OccursAt(out, tok, j) {
      assert out[j] == rep[j] && rep[j] in rep;
    }
  }

  /** A character copied because `tok` does not start there cannot start an occurrence in the output. */
  lemma NoTokenAfterCopy(s: string, tok: string, rep: string)
    requires |tok| > 0 && |rep| > 0 && |s| >= |tok|
    requires forall c :: c in rep ==> c !in tok
    requires s[..|tok|] != tok
    requires !Occurs(ReplaceAll(s[1..], tok, rep), tok)
    ensures !Occurs([s[0]] + ReplaceAll(s[1..], tok, rep), tok)
  {
    NoTokenPastPrefix([s[0]], ReplaceAll(s[1..], tok, rep), tok);
    CopiedCharStartsNoToken(s, tok, rep);
  }

  lemma CopiedCharStartsNoToken(s: string, tok: string, rep: string)
    requires |tok| > 0 && |rep| > 0 && |s| >= |tok|
    requires forall c :: c in rep ==> c !in tok
    requires s[..|tok|] != tok
    ensures !OccursAt([s[0]] + ReplaceAll(s[1..], tok, rep), tok, 0)
  {
    var rest := ReplaceAll(s[1..], tok, rep);
    var out := [s[0]] + rest;
    if OccursAt(out, tok, 0) {
      forall i | 0 <= i < |tok| - 1 ensures rest[i] in tok {
        assert rest[i] == out[i + 1] == tok[i + 1];
      }
      ReplaceAllPrefixCopied(s[1..], tok, rep, |tok| - 1);
      assert false;
    }
  }

  /**
   * After replacing every occurrence of `tok` by a non-empty `rep` that
   * shares no character with `tok`, no occurrence of `tok` is left.
   */
  lemma {:induction false} ReplaceAllRemovesToken(s: string, tok: string, rep: string)
    requires |tok| > 0 && |rep| > 0
    requires forall c :: c in rep ==> c !in tok
    ensures !Occurs(ReplaceAll(s, tok, rep), tok)
    decreases |s|
  {
    if |s| < |tok| {
      assert forall j :: !OccursAt(s, tok, j);
    } else if s[..|tok|] == tok {
      ReplaceAllRemovesToken(s[|tok|..], tok, rep);
      NoTokenAfterReplacement(rep, ReplaceAll(s[|tok|..], tok, rep), tok);
    } else {
      ReplaceAllRemovesToken(s[1..], tok, rep);
      NoTokenAfterCopy(s, tok, rep);
    }
  }
}
