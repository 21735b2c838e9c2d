/**
 * The Python string operations the modelled code relies on, each written out
 * with the semantics CPython gives it. Case mapping is ASCII only.
 */
module PyStrings {

  /** `s.startswith(prefix)` */
  predicate StartsWith(s: string, prefix: string) {
    |prefix| <= |s| && s[..|prefix|] == prefix
  }

  /** `s[i:].startswith(pat)` for an index inside `s`: an occurrence of `pat` starts at `i`. */
  predicate MatchAt(s: string, i: int, pat: string) {
    0 <= i && i + |pat| <= |s| && s[i..i + |pat|] == pat
  }

  /** A text whose first two characters differ from those at `i` does not occur at `i`. */
  lemma NotMatchAtFirstTwo(s: string, i: nat, pat: string)
    requires |pat| >= 2
    requires i + 1 < |s| ==> s[i] != pat[0] || s[i + 1] != pat[1]
    ensures !MatchAt(s, i, pat)
  {
    if i + |pat| <= |s| {
      assert s[i..i + |pat|][0] == s[i] && s[i..i + |pat|][1] == s[i + 1];
    }
  }

  predicate IsUpperAscii(c: char) { 'A' <= c <= 'Z' }
  predicate IsLowerAscii(c: char) { 'a' <= c <= 'z' }

  function LowerChar(c: char): char {
    if IsUpperAscii(c) then (c as int + 32) as char else c
  }

  function UpperChar(c: char): char {
    if IsLowerAscii(c) then (c as int - 32) as char else c
  }

  /** `s.lower()` */
  function Lower(s: string): (r: string)
    ensures |r| == |s|
  {
    seq(|s|, i requires 0 <= i < |s| => LowerChar(s[i]))
  }

  /** `s.capitalize()`: the first character upper-cased, the rest lower-cased. */
  function Capitalize(s: string): (r: string)
    ensures |r| == |s|
  {
    if s == [] then [] else [UpperChar(s[0])] + Lower(s[1..])
  }

  /** A word as `capitalize` leaves it: one upper-case letter, then lower-case letters. */
  predicate IsCapitalWord(w: string) {
    |w| >= 1 && IsUpperAscii(w[0]) && forall i :: 1 <= i < |w| ==> IsLowerAscii(w[i])
  }

  lemma LowerCharOfLetter(c: char, l: char)
    requires IsLowerAscii(l)
    ensures LowerChar(c) == l <==> (c == l || c as int == l as int - 32)
  {
  }

  /**
   * Capitalizing `s` yields the capital word `w` exactly when `s` and `w` agree
   * letter by letter ignoring case.
   */
  lemma CapitalizeMatches(s: string, w: string)
    requires IsCapitalWord(w)
    ensures Capitalize(s) == w <==> Lower(s) == Lower(w)
  {
    if Capitalize(s) == w {
      assert |s| == |w|;
      assert UpperChar(s[0]) == w[0];
      LowerCharOfLetter(s[0], LowerChar(w[0]));
      forall i | 0 <= i < |s| ensures Lower(s)[i] == Lower(w)[i] {
        if i > 0 {
          assert Capitalize(s)[i] == Lower(s[1..])[i - 1] == LowerChar(s[i]);
        }
      }
    }
    if Lower(s) == Lower(w) {
      assert |s| == |w|;
      assert Lower(s)[0] == Lower(w)[0];
      assert LowerChar(s[0]) == LowerChar(w[0]);
      assert LowerChar(w[0]) as int == w[0] as int + 32;
      LowerCharOfLetter(s[0], LowerChar(w[0]));
      assert UpperChar(s[0]) == w[0];
      forall i | 0 <= i < |s| ensures Capitalize(s)[i] == w[i] {
        if i > 0 {
          assert Capitalize(s)[i] == Lower(s[1..])[i - 1] == LowerChar(s[i]);
          assert LowerChar(s[i]) == Lower(w)[i] == LowerChar(w[i]) == w[i];
        }
      }
    }
  }

  /**
   * `s.replace(pat, rep)`: occurrences are found left to right and do not
   * overlap; scanning resumes after each replaced occurrence.
   */
  function ReplaceAll(s: string, pat: string, rep: string): string
    requires |pat| > 0
    decreases |s|
  {
    if |s| < |pat| then s
    else if s[..|pat|] == pat then rep + ReplaceAll(s[|pat|..], pat, rep)
    else [s[0]] + ReplaceAll(s[1..], pat, rep)
  }

  /** A string in which `pat` does not occur is left as it is. */
  lemma {:induction false} ReplaceAllNoMatch(s: string, pat: string, rep: string)
    requires |pat| > 0
    requires forall i :: 0 <= i < |s| ==> !MatchAt(s, i, pat)
    ensures ReplaceAll(s, pat, rep) == s
    decreases |s|
  {
    if |s| >= |pat| {
      assert !MatchAt(s, 0, pat);
      forall i | 0 <= i < |s[1..]| ensures !MatchAt(s[1..], i, pat) {
        assert !MatchAt(s, i + 1, pat);
        if i + |pat| <= |s[1..]| {
          assert s[1..][i..i + |pat|] == s[i + 1..i + 1 + |pat|];
        }
      }
      ReplaceAllNoMatch(s[1..], pat, rep);
    }
  }

  /** A prefix in which no occurrence of `pat` starts is copied unchanged. */
  lemma {:induction false} ReplaceAllKeepsPrefix(a: string, b: string, pat: string, rep: string)
    requires |pat| > 0
    requires forall i :: 0 <= i < |a| ==> !MatchAt(a + b, i, pat)
    ensures ReplaceAll(a + b, pat, rep) == a + ReplaceAll(b, pat, rep)
    decreases |a|
  {
    if a == [] {
      assert a + b == b;
    } else {
      var s := a + b;
      assert !MatchAt(s, 0, pat);
      if |s| < |pat| {
        assert ReplaceAll(b, pat, rep) == b;
        assert ReplaceAll(s, pat, rep) == s;
      } else {
        assert s[..|pat|] != pat;
        assert s[1..] == a[1..] + b;
        forall i | 0 <= i < |a[1..]| ensures !MatchAt(a[1..] + b, i, pat) {
          assert !MatchAt(s, i + 1, pat);
          if i + |pat| <= |s[1..]| {
            assert s[1..][i..i + |pat|] == s[i + 1..i + 1 + |pat|];
          }
        }
        assert ReplaceAll(s, pat, rep) == [s[0]] + ReplaceAll(s[1..], pat, rep);
        ReplaceAllKeepsPrefix(a[1..], b, pat, rep);
        assert [s[0]] + a[1..] == a;
      }
    }
  }

  /** An occurrence at the front is replaced and scanning resumes after it. */
  lemma ReplaceAllAtFront(b: string, pat: string, rep: string)
    requires |pat| > 0
    ensures ReplaceAll(pat + b, pat, rep) == rep + ReplaceAll(b, pat, rep)
  {
    assert (pat + b)[..|pat|] == pat;
    assert (pat + b)[|pat|..] == b;
  }

  /** The number of occurrences of the character `c` in `s`. */
  function Count(s: string, c: char): nat
    decreases |s|
  {
    if s == [] then 0 else Count(s[..|s| - 1], c) + (if s[|s| - 1] == c then 1 else 0)
  }

  lemma {:induction false} CountZero(s: string, c: char)
    requires c !in s
    ensures Count(s, c) == 0
    decreases |s|
  {
    if s != [] {
      assert s[..|s| - 1] + [s[|s| - 1]] == s;
      CountZero(s[..|s| - 1], c);
    }
  }

  /** `s.split(sep)` for a one-character separator: the pieces between the separators. */
  function Split(s: string, c: char): (r: seq<string>)
    ensures |r| >= 1
    decreases |s|
  {
    if s == [] then [[]]
    else
      var init := Split(s[..|s| - 1], c);
      if s[|s| - 1] == c then init + [[]]
      else init[..|init| - 1] + [init[|init| - 1] + [s[|s| - 1]]]
  }

  /** `sep.join(ps)` */
  function Join(ps: seq<string>, sep: string): string
    decreases |ps|
  {
    if |ps| == 0 then []
    else if |ps| == 1 then ps[0]
    else Join(ps[..|ps| - 1], sep) + sep + ps[|ps| - 1]
  }

  /** Splitting yields one more piece than there are separators. */
  lemma {:induction false} SplitCount(s: string, c: char)
    ensures |Split(s, c)| == Count(s, c) + 1
    decreases |s|
  {
    if s != [] {
      SplitCount(s[..|s| - 1], c);
    }
  }

  /** No piece contains the separator. */
  lemma {:induction false} SplitPiecesFree(s: string, c: char)
    ensures forall i :: 0 <= i < |Split(s, c)| ==> c !in Split(s, c)[i]
    decreases |s|
  {
    if s != [] {
      SplitPiecesFree(s[..|s| - 1], c);
      var init := Split(s[..|s| - 1], c);
      if s[|s| - 1] != c {
        assert c !in init[|init| - 1];
      }
    }
  }

  /** Joining the pieces with the separator gives back the string. */
  lemma {:induction false} SplitJoin(s: string, c: char)
    ensures Join(Split(s, c), [c]) == s
    decreases |s|
  {
    if s != [] {
      var s' := s[..|s| - 1];
      var x := s[|s| - 1];
      assert s == s' + [x];
      SplitJoin(s', c);
      var init := Split(s', c);
      var k := |init| - 1;
      if x == c {
        var ps := init + [[]];
        assert ps[..|ps| - 1] == init;
        assert Join(ps, [c]) == Join(init, [c]) + [c] + [];
      } else {
        var ps := init[..k] + [init[k] + [x]];
        if k == 0 {
          assert Join(ps, [c]) == init[0] + [x];
        } else {
          assert ps[..|ps| - 1] == init[..k];
          assert init[..k][..k - 1] == init[..k - 1];
          assert init[..k] == init[..k - 1] + [init[k - 1]];
          if k == 1 {
            assert Join(init[..k], [c]) == init[0];
          } else {
            assert Join(init[..k], [c]) == Join(init[..k - 1], [c]) + [c] + init[k - 1];
          }
          assert Join(init, [c]) == Join(init[..k], [c]) + [c] + init[k];
          assert Join(ps, [c]) == Join(init[..k], [c]) + [c] + (init[k] + [x]);
        }
      }
    }
  }

  /** `s.split(c)[-1]`: the text after the last `c`, or all of `s` if it has none. */
  function LastSegment(s: string, c: char): string {
    var ps := Split(s, c);
    ps[|ps| - 1]
  }

  /**
   * The last segment is a suffix of `s` free of `c`, preceded by a `c` unless
   * it is the whole string.
   */
  lemma {:induction false} LastSegmentIsTail(s: string, c: char)
    ensures var r := LastSegment(s, c);
      && c !in r
      && |r| <= |s|
      && s[|s| - |r|..] == r
      && (|r| < |s| ==> s[|s| - |r| - 1] == c)
    decreases |s|
  {
    if s != [] {
      var s' := s[..|s| - 1];
      LastSegmentIsTail(s', c);
      var init := Split(s', c);
      var r' := init[|init| - 1];
      if s[|s| - 1] != c {
        var r := LastSegment(s, c);
        assert r == r' + [s[|s| - 1]];
        assert s[|s| - |r|..] == s'[|s'| - |r'|..] + [s[|s| - 1]];
      }
    }
  }

  /** A string without `c` is its own last segment. */
  lemma LastSegmentOfFree(s: string, c: char)
    requires c !in s
    ensures LastSegment(s, c) == s
  {
    LastSegmentIsTail(s, c);
    var r := LastSegment(s, c);
    assert |r| == |s|;
    assert s[|s| - |r|..] == s;
  }

  /** `s.find(t)`: the index of the first occurrence of `t`, or -1. */
  function Find(s: string, t: string): (r: int)
    ensures r == -1 || 0 <= r
    ensures 0 <= r ==> MatchAt(s, r, t) && forall j :: 0 <= j < r ==> !MatchAt(s, j, t)
    ensures r == -1 ==> forall j :: 0 <= j <= |s| ==> !MatchAt(s, j, t)
    decreases |s|
  {
    if MatchAt(s, 0, t) then 0
    else if s == [] then -1
    else
      var r := Find(s[1..], t);
      MatchAtTail(s, t);
      if r < 0 then -1 else r + 1
  }

  /** An occurrence in `s[1..]` is an occurrence in `s` one position later. */
  lemma MatchAtTail(s: string, t: string)
    requires s != []
    ensures forall j :: 0 <= j ==> (MatchAt(s[1..], j, t) <==> MatchAt(s, j + 1, t))
    ensures forall j :: 1 <= j ==> (MatchAt(s, j, t) <==> MatchAt(s[1..], j - 1, t))
  {
    forall j | 0 <= j
      ensures MatchAt(s[1..], j, t) <==> MatchAt(s, j + 1, t)
    {
      if j + 1 + |t| <= |s| {
        assert s[1..][j..j + |t|] == s[j + 1..j + 1 + |t|];
      }
    }
    forall j | 1 <= j
      ensures MatchAt(s, j, t) <==> MatchAt(s[1..], j - 1, t)
    {
      if j + |t| <= |s| {
        assert s[1..][j - 1..j - 1 + |t|] == s[j..j + |t|];
      }
    }
  }

  /** `s[start:]` with Python's treatment of negative and out-of-range starts. */
  function SliceFrom(s: string, start: int): (r: string)
    ensures |r| <= |s|
  {
    var k := if start < 0 then (if -start > |s| then 0 else |s| + start)
             else (if start > |s| then |s| else start);
    s[k..]
  }

  /** The index of the last `c` in `s`, or -1 (`s.rfind(c)`). */
  function RFind(s: string, c: char): (r: int)
    ensures -1 <= r < |s|
    ensures 0 <= r ==> s[r] == c
    ensures forall j :: r < j < |s| ==> s[j] != c
    decreases |s|
  {
    if s == [] then -1
    else if s[|s| - 1] == c then |s| - 1
    else RFind(s[..|s| - 1], c)
  }

  /**
   * The extension `os.path.splitext` (POSIX) returns: from the last dot of the
   * last path component, provided the component has a character other than a
   * dot before it; otherwise empty.
   */
  function Extension(p: string): string {
    var sep := RFind(p, '/');
    var dot := RFind(p, '.');
    if dot > sep && exists i :: sep + 1 <= i < dot && p[i] != '.' then p[dot..] else ""
  }

  function DigitChar(d: int): char
    requires 0 <= d < 10
  {
    ('0' as int + d) as char
  }

  /** The decimal digits of `n` (`str(n)` for a non-negative int). */
  function NatToString(n: nat): (r: string)
    ensures |r| >= 1
    ensures forall i :: 0 <= i < |r| ==> '0' <= r[i] <= '9'
  {
    if n < 10 then [DigitChar(n)] else NatToString(n / 10) + [DigitChar(n % 10)]
  }

  /** `str(i)` for an int. */
  function IntToString(i: int): string {
    if i < 0 then "-" + NatToString(-i) else NatToString(i)
  }

  lemma IntToStringHasNo(i: int, c: char)
    requires c != '-' && !('0' <= c <= '9')
    ensures c !in IntToString(i)
  {
    var d := NatToString(if i < 0 then -i else i);
    assert c !in d;
  }

  /** `os.path.join(a, b)` on POSIX. */
  function PathJoin(a: string, b: string): string {
    if StartsWith(b, "/") then b
    else if a == [] || a[|a| - 1] == '/' then a + b
    else a + "/" + b
  }

  /** Every character is printable ASCII (space to tilde). */
  predicate Printable(s: string) {
    forall i :: 0 <= i < |s| ==> ' ' <= s[i] <= '~'
  }

  /** Joining pieces that lack `c` with a separator that lacks `c` gives a string without `c`. */
  lemma {:induction false} JoinFree(ps: seq<string>, sep: string, c: char)
    requires c !in sep
    requires forall i :: 0 <= i < |ps| ==> c !in ps[i]
    ensures c !in Join(ps, sep)
    decreases |ps|
  {
    if |ps| > 1 {
      JoinFree(ps[..|ps| - 1], sep, c);
    }
  }

  /** Joining printable pieces with a printable separator gives a printable string. */
  lemma {:induction false} JoinPrintable(ps: seq<string>, sep: string)
    requires Printable(sep)
    requires forall i :: 0 <= i < |ps| ==> Printable(ps[i])
    ensures Printable(Join(ps, sep))
    decreases |ps|
  {
    if |ps| > 1 {
      JoinPrintable(ps[..|ps| - 1], sep);
      var init := Join(ps[..|ps| - 1], sep);
      assert Join(ps, sep) == init + sep + ps[|ps| - 1];
    }
  }
}
