/**
 * The few Go `strings` and `path` operations the program relies on, as
 * functions over `seq<char>`: substring search, `strings.Split`,
 * `strings.Trim(s, " ")` and the file part of `path.Split`.
 */
module Strings {

  /** `sep` occurs in `s` starting at index `j`. */
  predicate OccursAt(s: string, sep: string, j: int)
  {
    0 <= j && j + |sep| <= |s| && s[j..j + |sep|] == sep
  }

  /** `sep` occurs nowhere in `s`. */
  ghost predicate Absent(s: string, sep: string)
  {
    forall j :: !OccursAt(s, sep, j)
  }

  /** Search for `sep` from index `k` onwards. */
  function IndexFrom(s: string, sep: string, k: nat): (r: int)
    requires k <= |s| + 1
    ensures r == -1 || (k <= r && r + |sep| <= |s|)
    decreases |s| + 1 - k
  {
    if k + |sep| > |s| then -1
    else if s[k..k + |sep|] == sep then k
    else IndexFrom(s, sep, k + 1)
  }

  /** Go's `strings.Index`: the first index at which `sep` occurs, or -1. */
  function IndexOf(s: string, sep: string): (r: int)
    ensures r == -1 || (0 <= r && r + |sep| <= |s|)
  {
    IndexFrom(s, sep, 0)
  }

  /** The search from `k` finds the first occurrence at or after `k`, if any. */
  lemma {:induction false} IndexFromFirst(s: string, sep: string, k: nat)
    requires k <= |s| + 1
    ensures var r := IndexFrom(s, sep, k);
      && (r == -1 || (k <= r && OccursAt(s, sep, r)))
      && (r == -1 ==> forall j :: k <= j ==> !OccursAt(s, sep, j))
      && (r != -1 ==> forall j :: k <= j < r ==> !OccursAt(s, sep, j))
    decreases |s| + 1 - k
  {
    if k + |sep| <= |s| && s[k..k + |sep|] != sep {
      IndexFromFirst(s, sep, k + 1);
    }
  }

  /** `IndexOf` is -1 exactly when `sep` is absent, and otherwise the first occurrence. */
  lemma IndexOfFirst(s: string, sep: string)
    ensures IndexOf(s, sep) == -1 <==> Absent(s, sep)
    ensures IndexOf(s, sep) != -1 ==>
      OccursAt(s, sep, IndexOf(s, sep)) && forall j :: 0 <= j < IndexOf(s, sep) ==> !OccursAt(s, sep, j)
  {
    IndexFromFirst(s, sep, 0);
  }

  /** Go's `strings.Contains`. */
  predicate Contains(s: string, sep: string)
  {
    IndexOf(s, sep) != -1
  }

  /**
   * Go's `strings.Split` for a non-empty separator: the pieces between
   * successive non-overlapping occurrences of `sep`, from left to right.
   */
  function Split(s: string, sep: string): (r: seq<string>)
    requires |sep| > 0
    ensures |r| >= 1
    decreases |s|
  {
    var i := IndexOf(s, sep);
    if i == -1 then [s] else [s[..i]] + Split(s[i + |sep|..], sep)
  }

  /** Go's `strings.Trim(s, " ")`: leading and trailing spaces removed. */
  function TrimSpaces(s: string): (r: string)
    decreases |s|
  {
    if |s| > 0 && s[0] == ' ' then TrimSpaces(s[1..])
    else if |s| > 0 && s[|s| - 1] == ' ' then TrimSpaces(s[..|s| - 1])
    else s
  }

  /** The index just after the last '/' of `p`, 0 when there is none. */
  function AfterLastSlash(p: string): (r: nat)
    ensures r <= |p|
    ensures r > 0 ==> p[r - 1] == '/'
    ensures forall j :: r <= j < |p| ==> p[j] != '/'
    decreases |p|
  {
    if p == [] then 0
    else if p[|p| - 1] == '/' then |p|
    else AfterLastSlash(p[..|p| - 1])
  }

  /** The `file` half of Go's `path.Split`: everything after the final slash. */
  function BaseName(p: string): (r: string)
    ensures '/' !in r
    ensures exists k :: 0 <= k <= |p| && r == p[k..]
  {
    var k := AfterLastSlash(p);
    assert forall c :: c in p[k..] ==> c != '/';
    p[k..]
  }

  // ---------------------------------------------------------------------
  // Facts about search and split
  // ---------------------------------------------------------------------

  /** A separator whose characters include one that `s` lacks never occurs in `s`. */
  lemma AbsentByCharacter(s: string, sep: string, c: char)
    requires c in sep && c !in s
    ensures Absent(s, sep)
  {
    var k :| 0 <= k < |sep| && sep[k] == c;
    forall j | 0 <= j && j + |sep| <= |s| ensures !OccursAt(s, sep, j) {
      assert s[j..j + |sep|][k] == s[j + k];
      assert s[j + k] in s;
    }
  }

  /**
   * Gluing two texts that lack `sep` around a character that `sep` does not
   * contain gives a text that still lacks `sep`.
   */
  lemma AbsentAcross(x: string, c: char, y: string, sep: string)
    requires |sep| > 0 && c !in sep
    requires Absent(x, sep) && Absent(y, sep)
    ensures Absent(x + [c] + y, sep)
  {
    var s := x + [c] + y;
    forall j | 0 <= j && j + |sep| <= |s| ensures !OccursAt(s, sep, j) {
      if j + |sep| <= |x| {
        assert s[j..j + |sep|] == x[j..j + |sep|];
        assert !OccursAt(x, sep, j);
      } else if j > |x| {
        assert s[j..j + |sep|] == y[j - |x| - 1..j - |x| - 1 + |sep|];
        assert !OccursAt(y, sep, j - |x| - 1);
      } else {
        assert s[j..j + |sep|][|x| - j] == c;
        assert sep[|x| - j] in sep;
      }
    }
  }

  lemma AbsentEmpty(sep: string)
    requires |sep| > 0
    ensures Absent("", sep)
  {
  }

  /** `x + "\n\n" + y` lacks a newline-free `sep` when `x` and `y` do. */
  lemma AbsentAcrossBlankLine(x: string, y: string, sep: string)
    requires |sep| > 0 && '\n' !in sep
    requires Absent(x, sep) && Absent(y, sep)
    ensures Absent(x + "\n\n" + y, sep)
  {
    AbsentEmpty(sep);
    AbsentAcross(x, '\n', "", sep);
    assert x + ['\n'] + "" == x + "\n";
    AbsentAcross(x + "\n", '\n', y, sep);
    assert x + "\n" + ['\n'] + y == x + "\n\n" + y;
  }

  /**
   * When `a` lacks `sep` and ends in a character `sep` does not contain, the
   * first occurrence of `sep` in `a + sep + b` is the one right after `a`.
   */
  lemma FirstOccurrenceAfter(a: string, sep: string, b: string)
    requires |sep| > 0 && |a| > 0 && a[|a| - 1] !in sep
    requires Absent(a, sep)
    ensures IndexOf(a + sep + b, sep) == |a|
  {
    var s := a + sep + b;
    IndexOfFirst(s, sep);
    assert s[|a|..|a| + |sep|] == sep;
    assert OccursAt(s, sep, |a|);
    forall j | 0 <= j < |a| ensures !OccursAt(s, sep, j) {
      if j + |sep| <= |a| {
        assert s[j..j + |sep|] == a[j..j + |sep|];
        assert !OccursAt(a, sep, j);
      } else if j + |sep| <= |s| {
        assert s[j..j + |sep|][|a| - 1 - j] == a[|a| - 1];
        assert sep[|a| - 1 - j] in sep;
      }
    }
  }

  /** Splitting `a + sep + b`, with `sep` found first right after `a`. */
  lemma SplitAt(a: string, sep: string, b: string)
    requires |sep| > 0 && IndexOf(a + sep + b, sep) == |a|
    ensures Split(a + sep + b, sep) == [a] + Split(b, sep)
  {
    var s := a + sep + b;
    assert s[..|a|] == a;
    assert s[|a| + |sep|..] == b;
  }

  /** A text lacking `sep` splits into itself alone. */
  lemma SplitAbsent(s: string, sep: string)
    requires |sep| > 0 && Absent(s, sep)
    ensures Split(s, sep) == [s]
  {
    IndexOfFirst(s, sep);
  }

  /** `Contains` holds exactly when splitting yields more than one piece. */
  lemma ContainsIffSplits(s: string, sep: string)
    requires |sep| > 0
    ensures Contains(s, sep) <==> |Split(s, sep)| >= 2
  {
  }

  /** The one-character separator `[c]` occurs at `j` exactly when `s[j] == c`. */
  lemma OccursAtChar(s: string, c: char, j: int)
    requires 0 <= j < |s|
    ensures OccursAt(s, [c], j) <==> s[j] == c
  {
    if s[j] == c {
      assert s[j..j + 1] == [c];
    }
  }

  /** Searching for a one-character separator finds the first occurrence of that character. */
  lemma IndexOfChar(s: string, c: char)
    ensures IndexOf(s, [c]) == -1 <==> c !in s
    ensures IndexOf(s, [c]) != -1 ==>
      var i := IndexOf(s, [c]);
      0 <= i < |s| && s[i] == c && c !in s[..i]
  {
    IndexOfFirst(s, [c]);
    var i := IndexOf(s, [c]);
    if i == -1 {
      forall j | 0 <= j < |s| ensures s[j] != c {
        OccursAtChar(s, c, j);
      }
    } else {
      OccursAtChar(s, c, i);
      forall j | 0 <= j < i ensures s[..i][j] != c {
        OccursAtChar(s, c, j);
      }
    }
  }

  /** A text without the character `c` splits on `[c]` into itself alone. */
  lemma SplitNoChar(s: string, c: char)
    requires c !in s
    ensures Split(s, [c]) == [s]
  {
    IndexOfChar(s, c);
  }

  /** A line trims to a non-empty string exactly when it has a character other than a space. */
  lemma {:induction false} TrimSpacesNonEmpty(s: string)
    ensures TrimSpaces(s) != "" <==> exists i :: 0 <= i < |s| && s[i] != ' '
    decreases |s|
  {
    if |s| > 0 && s[0] == ' ' {
      var t := s[1..];
      TrimSpacesNonEmpty(t);
      if i :| 0 <= i < |t| && t[i] != ' ' {
        assert s[i + 1] == t[i];
      }
      if i :| 0 <= i < |s| && s[i] != ' ' {
        assert t[i - 1] == s[i];
      }
    } else if |s| > 0 && s[|s| - 1] == ' ' {
      var t := s[..|s| - 1];
      TrimSpacesNonEmpty(t);
      if i :| 0 <= i < |t| && t[i] != ' ' {
        assert s[i] == t[i];
      }
      if i :| 0 <= i < |s| && s[i] != ' ' {
        assert t[i] == s[i];
      }
    } else if |s| > 0 {
      assert s[0] != ' ';
    }
  }
}
