/**
 * The case-insensitive substring test behind a `__icontains` lookup on the
 * default SQLite database: LIKE '%needle%', which folds ASCII letters only.
 */
module Text {

  function LowerChar(c: char): (d: char)
    ensures 'A' <= c <= 'Z' ==> d as int == c as int + 32
    ensures !('A' <= c <= 'Z') ==> d == c
  {
    if 'A' <= c <= 'Z' then (c as int + 32) as char else c
  }

  /** ASCII lower-casing; every other character is kept. */
  function Lower(s: string): (r: string)
    ensures |r| == |s|
    ensures forall i :: 0 <= i < |s| ==> r[i] == LowerChar(s[i])
  {
    if s == [] then [] else [LowerChar(s[0])] + Lower(s[1..])
  }

  predicate StartsWith(s: string, prefix: string) {
    |prefix| <= |s| && s[..|prefix|] == prefix
  }

  /** `needle` occurs in `s`, tried at every position from the left, as LIKE does. */
  predicate Contains(s: string, needle: string)
    decreases |s|
  {
    StartsWith(s, needle) || (|s| > 0 && Contains(s[1..], needle))
  }

  /** `needle` occurs in `s`, compared with ASCII letters folded to lower case. */
  predicate ContainsIgnoreCase(s: string, needle: string) {
    Contains(Lower(s), Lower(needle))
  }

  /** `needle` is the slice of `s` that starts at position `i`. */
  predicate OccursAt(s: string, needle: string, i: int) {
    0 <= i && i + |needle| <= |s| && s[i..i + |needle|] == needle
  }

  /** Contains finds exactly the positions where `needle` is a slice of `s`. */
  lemma {:induction false} ContainsAt(s: string, needle: string)
    ensures Contains(s, needle) <==> exists i :: OccursAt(s, needle, i)
    decreases |s|
  {
    if Contains(s, needle) {
      if StartsWith(s, needle) {
        assert OccursAt(s, needle, 0);
      } else {
        ContainsAt(s[1..], needle);
        var i :| OccursAt(s[1..], needle, i);
        assert s[i + 1..i + 1 + |needle|] == s[1..][i..i + |needle|];
        assert OccursAt(s, needle, i + 1);
      }
    }
    if exists i :: OccursAt(s, needle, i) {
      var i :| OccursAt(s, needle, i);
      if i == 0 {
        assert StartsWith(s, needle);
      } else {
        assert s[1..][i - 1..i - 1 + |needle|] == s[i..i + |needle|];
        assert OccursAt(s[1..], needle, i - 1);
        ContainsAt(s[1..], needle);
      }
    }
  }

  /** An empty item name matches every material name. */
  lemma ContainsEmpty(s: string)
    ensures ContainsIgnoreCase(s, "")
  {
    assert StartsWith(Lower(s), Lower(""));
  }

  /** A name always matches itself, whatever the case of either side. */
  lemma ContainsIgnoreCaseSelf(s: string, t: string)
    requires Lower(s) == Lower(t)
    ensures ContainsIgnoreCase(s, t)
  {
    assert StartsWith(Lower(s), Lower(t));
  }

  /** The name with a prefix and a suffix around it still matches. */
  lemma ContainsIgnoreCaseInside(prefix: string, name: string, suffix: string)
    ensures ContainsIgnoreCase(prefix + name + suffix, name)
  {
    var s := prefix + name + suffix;
    var ls := Lower(s);
    var ln := Lower(name);
    forall k | 0 <= k < |ln|
      ensures ls[|prefix| + k] == ln[k]
    {
      assert s[|prefix| + k] == name[k];
    }
    assert ls[|prefix|..|prefix| + |ln|] == ln;
    assert OccursAt(ls, ln, |prefix|);
    ContainsAt(ls, ln);
  }
}
