/** The few string operations the ingestion panel relies on, written as the
    JavaScript built-ins behave on one-character separators:
    `split(sep)`, `pop()` on the result, `endsWith` and `toLowerCase`
    (ASCII letters only for `toLowerCase`). */
module Text {

  /** The pieces of `s` between occurrences of `sep`, as `s.split(sep)`
      returns them: never empty, and an empty string splits into `[""]`. */
  function Split(s: string, sep: char): (parts: seq<string>)
    ensures |parts| >= 1
    ensures forall i :: 0 <= i < |parts| ==> sep !in parts[i]
    ensures |parts| == 1 <==> sep !in s
    ensures |parts| == 1 ==> parts[0] == s
    decreases |s|
  {
    if |s| == 0 then [""]
    else
      var rest := Split(s[1..], sep);
      if s[0] == sep then [""] + rest
      else [[s[0]] + rest[0]] + rest[1..]
  }

  /** `parts.join(sep)`. */
  function Join(parts: seq<string>, sep: char): string
    requires |parts| >= 1
    decreases |parts|
  {
    if |parts| == 1 then parts[0] else parts[0] + [sep] + Join(parts[1..], sep)
  }

  /** Splitting loses nothing: joining the pieces back gives the input. */
  lemma {:induction false} JoinSplit(s: string, sep: char)
    ensures Join(Split(s, sep), sep) == s
    decreases |s|
  {
    if |s| > 0 {
      var rest := Split(s[1..], sep);
      JoinSplit(s[1..], sep);
      if s[0] == sep {
        assert ([""] + rest)[1..] == rest;
        assert s == [sep] + s[1..];
      } else {
        var parts := [[s[0]] + rest[0]] + rest[1..];
        if |rest| == 1 {
          assert s == [s[0]] + s[1..];
        } else {
          assert parts[1..] == rest[1..];
          assert Join(rest, sep) == rest[0] + [sep] + Join(rest[1..], sep);
          assert s == [s[0]] + s[1..];
        }
      }
    }
  }

  /** `s.split(sep).pop()`: the last piece of the split. */
  function AfterLast(s: string, sep: char): (r: string)
    ensures sep !in r
    ensures sep !in s ==> r == s
  {
    var parts := Split(s, sep);
    parts[|parts| - 1]
  }

  /** `r` is the longest suffix of `s` free of every character in `seps`:
      it is a suffix, it holds no separator, and it is either all of `s` or
      preceded by a separator. */
  predicate IsFinalSegment(s: string, seps: set<char>, r: string)
  {
    && |r| <= |s|
    && r == s[|s| - |r|..]
    && (forall i :: 0 <= i < |r| ==> r[i] !in seps)
    && (|r| < |s| ==> s[|s| - |r| - 1] in seps)
  }

  /** Dropping the first character keeps the last piece when that
      character is a separator or another separator follows. */
  lemma AfterLastSkipsHead(s: string, sep: char)
    requires |s| > 0 && (s[0] == sep || sep in s[1..])
    ensures AfterLast(s, sep) == AfterLast(s[1..], sep)
  {
    var rest := Split(s[1..], sep);
    if s[0] == sep {
      assert Split(s, sep) == [""] + rest;
    } else {
      assert Split(s, sep) == [[s[0]] + rest[0]] + rest[1..];
    }
  }

  /** The last piece of a split is the final segment after the separator. */
  lemma {:induction false} AfterLastIsFinalSegment(s: string, sep: char)
    ensures IsFinalSegment(s, {sep}, AfterLast(s, sep))
    decreases |s|
  {
    if |s| > 0 && (s[0] == sep || sep in s[1..]) {
      var t := s[1..];
      AfterLastIsFinalSegment(t, sep);
      AfterLastSkipsHead(s, sep);
      var r := AfterLast(t, sep);
      assert t[|t| - |r|..] == s[|s| - |r|..];
      if |r| < |t| {
        assert t[|t| - |r| - 1] == s[|s| - |r| - 1];
      }
    }
  }

  /** Taking the final segment for one separator and then, of that, for
      another gives the final segment for both. */
  lemma FinalSegmentCompose(s: string, a: string, b: string, sep1: char, sep2: char)
    requires IsFinalSegment(s, {sep1}, a)
    requires IsFinalSegment(a, {sep2}, b)
    ensures IsFinalSegment(s, {sep1, sep2}, b)
  {
    assert a[|a| - |b|..] == s[|s| - |b|..];
    forall i | 0 <= i < |b|
      ensures b[i] !in {sep1, sep2}
    {
      assert b[i] == a[|a| - |b| + i];
    }
    if |b| < |a| {
      assert a[|a| - |b| - 1] == s[|s| - |b| - 1];
    }
  }

  /** There is only one final segment, so any definition meeting
      `IsFinalSegment` agrees with `AfterLast`. */
  lemma FinalSegmentUnique(s: string, seps: set<char>, r1: string, r2: string)
    requires IsFinalSegment(s, seps, r1)
    requires IsFinalSegment(s, seps, r2)
    ensures r1 == r2
  {
  }

  /** `s.endsWith(suffix)`. */
  predicate EndsWith(s: string, suffix: string)
  {
    |suffix| <= |s| && s[|s| - |suffix|..] == suffix
  }

  /** `toLowerCase` on one character, for the ASCII letters. */
  function LowerChar(c: char): char
  {
    if 'A' <= c <= 'Z' then (c as int - 'A' as int + 'a' as int) as char else c
  }

  /** `s.toLowerCase()`, letter by letter. */
  function ToLower(s: string): (r: string)
    ensures |r| == |s|
    ensures forall i :: 0 <= i < |s| ==> r[i] == LowerChar(s[i])
    decreases |s|
  {
    if |s| == 0 then [] else [LowerChar(s[0])] + ToLower(s[1..])
  }

  /** Lower-casing commutes with taking a suffix. */
  lemma ToLowerSuffix(s: string, k: nat)
    requires k <= |s|
    ensures ToLower(s)[k..] == ToLower(s[k..])
  {
  }
}
