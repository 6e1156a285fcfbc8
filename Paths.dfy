/**
 * File names and the few pathlib operations the stages use to derive one
 * stage's output name from its input name: `name`, `parent`, `suffix`,
 * `stem` and `with_suffix`; plus the two string tests the stages apply to
 * names, a name's ending and Python's `in`.
 *
 * A path is kept as its parent directory (as text) and its final
 * component. Every stage builds its outputs as `<parent> / <new name>`,
 * so the parent is carried over unchanged and only the name is rewritten.
 */
module Paths {

  datatype Path = Path(dir: string, name: string)

  /** The text of a path, as `str(path)` prints it. */
  function Show(p: Path): string
  {
    p.dir + "/" + p.name
  }

  /** `outdir / name` */
  function Join(dir: string, name: string): Path
  {
    Path(dir, name)
  }

  /** Index of the last '.' in `s`, or -1 when there is none (`str.rfind('.')`). */
  function LastDot(s: string): (i: int)
    ensures -1 <= i < |s|
    ensures 0 <= i ==> s[i] == '.'
  {
    if |s| == 0 then -1
    else if s[|s| - 1] == '.' then |s| - 1
    else LastDot(s[..|s| - 1])
  }

  /** No dot comes after the one LastDot finds. */
  lemma {:induction false} LastDotIsLast(s: string)
    ensures forall j :: LastDot(s) < j < |s| ==> s[j] != '.'
  {
    if |s| > 0 && s[|s| - 1] != '.' {
      var init := s[..|s| - 1];
      LastDotIsLast(init);
      assert forall j :: 0 <= j < |init| ==> init[j] == s[j];
    }
  }

  /** pathlib's rule: a suffix starts at the last dot, which must be neither the first nor the last character. */
  predicate HasSuffix(name: string)
  {
    0 < LastDot(name) < |name| - 1
  }

  /** `PurePath.suffix`: the last dotted part of the name, or "". */
  function Suffix(name: string): (s: string)
    ensures s == "" || (|s| >= 2 && s[0] == '.')
  {
    if HasSuffix(name) then name[LastDot(name)..] else ""
  }

  /** `PurePath.stem`: the name without its last suffix. */
  function Stem(name: string): (s: string)
    ensures s <= name
  {
    if HasSuffix(name) then name[..LastDot(name)] else name
  }

  /** A suffix `with_suffix` accepts: a dot followed by at least one character and no further dot. */
  predicate ValidSuffix(s: string)
  {
    |s| >= 2 && s[0] == '.' && forall j :: 0 < j < |s| ==> s[j] != '.'
  }

  /** `PurePath.with_suffix(suffix)` on a non-empty name (pathlib refuses an empty one). */
  function WithSuffix(name: string, suffix: string): (r: string)
    requires name != ""
    ensures Stem(name) <= r
    ensures EndsWith(r, suffix)
    ensures |r| == |Stem(name)| + |suffix|
  {
    Stem(name) + suffix
  }

  /** Whether `name` ends with `tail`, which is what the glob `*<tail>` tests. */
  predicate EndsWith(name: string, tail: string)
  {
    |tail| <= |name| && name[|name| - |tail|..] == tail
  }

  /** Python's `pattern in text` on strings. */
  predicate Contains(text: string, pattern: string)
    ensures Contains(text, pattern) ==> |pattern| <= |text|
  {
    exists i: nat :: i <= |text| - |pattern| && OccursAt(text, pattern, i)
  }

  /** `pattern` is found in `text` starting at index `i`. */
  predicate OccursAt(text: string, pattern: string, i: nat)
  {
    i + |pattern| <= |text| && text[i..i + |pattern|] == pattern
  }

  /** A pattern holding a character that the text lacks is not found in it. */
  lemma Absent(text: string, pattern: string, j: nat)
    requires j < |pattern| && forall k :: 0 <= k < |text| ==> text[k] != pattern[j]
    ensures !Contains(text, pattern)
  {
    forall i: nat | i <= |text| - |pattern|
      ensures !OccursAt(text, pattern, i)
    {
      assert text[i..i + |pattern|][j] == text[i + j];
    }
  }

  /** The stem and the suffix put back together give the name. */
  lemma StemSuffix(name: string)
    ensures Stem(name) + Suffix(name) == name
  {
    if HasSuffix(name) {
      assert name == name[..LastDot(name)] + name[LastDot(name)..];
    }
  }

  /** Replacing the suffix with a valid one gives a name with that suffix and the same stem. */
  lemma WithSuffixRoundTrip(name: string, suffix: string)
    requires name != "" && ValidSuffix(suffix)
    ensures Suffix(WithSuffix(name, suffix)) == suffix
    ensures Stem(WithSuffix(name, suffix)) == Stem(name)
  {
    var r := WithSuffix(name, suffix);
    SuffixOfEnding(r, suffix);
    assert r[..|r| - |suffix|] == Stem(name);
  }

  /** Where the last dot of a name that ends with a valid suffix is. */
  lemma {:induction false} LastDotOfSuffixed(stem: string, suffix: string)
    requires ValidSuffix(suffix)
    ensures LastDot(stem + suffix) == |stem|
  {
    var s := stem + suffix;
    LastDotIsLast(s);
    assert s[|stem|] == '.';
    assert forall j :: |stem| < j < |s| ==> s[j] == suffix[j - |stem|];
  }

  /** A name ending in a valid suffix has exactly that suffix, and its stem is what precedes it. */
  lemma {:induction false} SuffixOfEnding(name: string, suffix: string)
    requires ValidSuffix(suffix) && EndsWith(name, suffix) && |name| > |suffix|
    ensures Suffix(name) == suffix
    ensures Stem(name) == name[..|name| - |suffix|]
  {
    var stem := name[..|name| - |suffix|];
    assert name == stem + suffix;
    LastDotOfSuffixed(stem, suffix);
  }
}
