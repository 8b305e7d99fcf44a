/** String helpers shared by the services: the ASCII part of Python's
    str.strip / str.lower / str.split / "in", and decimal rendering of
    counts. Python's Unicode tables are not modelled: whitespace and case
    folding are restricted to ASCII. */
module Text {

  /** The ASCII characters Python's str.isspace() accepts: space, \t, \n,
      \x0b, \x0c, \r and the separators \x1c to \x1f. */
  const AsciiSpaces: set<char> :=
    {' ', '\t', '\n', '\U{0B}', '\U{0C}', '\r', '\U{1C}', '\U{1D}', '\U{1E}', '\U{1F}'}

  /** Python's whitespace characters, restricted to ASCII. */
  predicate IsSpace(c: char) {
    c == ' ' || '\t' <= c <= '\r' || '\U{1C}' <= c <= '\U{1F}'
  }

  /** The predicate and the set name the same characters. */
  lemma SpacesAgree(c: char)
    ensures IsSpace(c) <==> c in AsciiSpaces
  {
  }

  /** Every character of `s` is whitespace (so `s.strip()` is empty). */
  predicate Blank(s: string) {
    forall i :: 0 <= i < |s| ==> IsSpace(s[i])
  }

  predicate IsDigit(c: char) {
    '0' <= c <= '9'
  }

  /** str.lstrip() */
  function LStrip(s: string): (r: string)
    ensures |r| <= |s| && r == s[|s| - |r|..]
    ensures r == [] || !IsSpace(r[0])
    ensures Blank(s[..|s| - |r|])
    decreases |s|
  {
    if s != [] && IsSpace(s[0]) then
      var r := LStrip(s[1..]);
      LStripStep(s, r);
      r
    else s
  }

  lemma LStripStep(s: string, r: string)
    requires s != [] && IsSpace(s[0])
    requires |r| <= |s| - 1 && r == s[1..][|s| - 1 - |r|..] && Blank(s[1..][..|s| - 1 - |r|])
    ensures r == s[|s| - |r|..] && Blank(s[..|s| - |r|])
  {
    assert s[1..][|s| - 1 - |r|..] == s[|s| - |r|..];
    assert s[..|s| - |r|] == [s[0]] + s[1..][..|s| - 1 - |r|];
  }

  /** str.rstrip() */
  function RStrip(s: string): (r: string)
    ensures |r| <= |s| && r == s[..|r|]
    ensures r == [] || !IsSpace(r[|r| - 1])
    ensures Blank(s[|r|..])
    decreases |s|
  {
    if s != [] && IsSpace(s[|s| - 1]) then
      var r := RStrip(s[..|s| - 1]);
      RStripStep(s, r);
      r
    else s
  }

  lemma RStripStep(s: string, r: string)
    requires s != [] && IsSpace(s[|s| - 1])
    requires |r| <= |s| - 1 && r == s[..|s| - 1][..|r|] && Blank(s[..|s| - 1][|r|..])
    ensures r == s[..|r|] && Blank(s[|r|..])
  {
    assert s[..|s| - 1][..|r|] == s[..|r|];
    assert s[|r|..] == s[..|s| - 1][|r|..] + [s[|s| - 1]];
  }

  /** str.strip(): what is left between the leading and the trailing
      whitespace (StripDropsOnlySpace: and only whitespace is dropped). */
  function Strip(s: string): (r: string)
    ensures r == [] || (!IsSpace(r[0]) && !IsSpace(r[|r| - 1]))
    ensures |s| - |LStrip(s)| + |r| <= |s| && OccursAt(s, r, |s| - |LStrip(s)|)
  {
    var l := LStrip(s);
    var r := RStrip(l);
    StripSlices(s, l, r);
    r
  }

  /** Where the stripped text sits in `s`. */
  lemma StripSlices(s: string, l: string, r: string)
    requires |l| <= |s| && l == s[|s| - |l|..]
    requires l == [] || !IsSpace(l[0])
    requires |r| <= |l| && r == l[..|r|]
    requires r == [] || !IsSpace(r[|r| - 1])
    ensures r == [] || (!IsSpace(r[0]) && !IsSpace(r[|r| - 1]))
    ensures |s| - |l| + |r| <= |s| && OccursAt(s, r, |s| - |l|)
  {
    var off := |s| - |l|;
    if r != [] {
      assert r[0] == l[0];
    }
    assert s[off..][..|r|] == s[off..off + |r|];
  }

  /** `s.strip()` drops only whitespace: every character before and after
      the stripped slice is whitespace, so the slice is the largest one
      whose ends are not whitespace. */
  lemma StripDropsOnlySpace(s: string)
    ensures |s| - |LStrip(s)| + |Strip(s)| <= |s|
    ensures forall i :: 0 <= i < |s| - |LStrip(s)| ==> IsSpace(s[i])
    ensures forall i :: |s| - |LStrip(s)| + |Strip(s)| <= i < |s| ==> IsSpace(s[i])
  {
    var l := LStrip(s);
    var r := RStrip(l);
    assert Strip(s) == r;
    SpaceOutside(s, l, r);
  }

  lemma SpaceOutside(s: string, l: string, r: string)
    requires |l| <= |s| && l == s[|s| - |l|..] && Blank(s[..|s| - |l|])
    requires |r| <= |l| && r == l[..|r|] && Blank(l[|r|..])
    ensures forall i :: 0 <= i < |s| - |l| ==> IsSpace(s[i])
    ensures forall i :: |s| - |l| + |r| <= i < |s| ==> IsSpace(s[i])
  {
    forall i | 0 <= i < |s| - |l|
      ensures IsSpace(s[i])
    {
      assert s[..|s| - |l|][i] == s[i];
    }
    forall i | |s| - |l| + |r| <= i < |s|
      ensures IsSpace(s[i])
    {
      assert l[|r|..][i - (|s| - |l|) - |r|] == s[i];
    }
  }

  /** `s.strip()` is empty exactly when `s` is blank. */
  lemma {:induction false} StripEmptyIffBlank(s: string)
    ensures Strip(s) == [] <==> Blank(s)
  {
    var l := LStrip(s);
    if !Blank(s) {
      var k :| 0 <= k < |s| && !IsSpace(s[k]);
      assert k >= |s| - |l|;
      assert l != [] && !IsSpace(l[0]);
    }
  }

  /** str.rstrip(c) for a single character c. */
  function RStripChar(s: string, c: char): (r: string)
    ensures |r| <= |s| && r == s[..|r|]
    ensures r == [] || r[|r| - 1] != c
    ensures forall i :: |r| <= i < |s| ==> s[i] == c
    decreases |s|
  {
    if s != [] && s[|s| - 1] == c then RStripChar(s[..|s| - 1], c) else s
  }

  function LowerChar(c: char): char {
    if 'A' <= c <= 'Z' then (c as int + 32) as char else c
  }

  /** str.lower(), ASCII letters only. */
  function Lower(s: string): (r: string)
    ensures |r| == |s|
  {
    seq(|s|, i requires 0 <= i < |s| => LowerChar(s[i]))
  }

  /** Lower-casing twice is lower-casing once. */
  lemma LowerIdempotent(s: string)
    ensures Lower(Lower(s)) == Lower(s)
  {
    assert forall i :: 0 <= i < |s| ==> Lower(Lower(s))[i] == Lower(s)[i];
  }

  predicate IsPrefix(p: string, s: string) {
    |p| <= |s| && s[..|p|] == p
  }

  predicate EndsWith(s: string, suffix: string) {
    |suffix| <= |s| && s[|s| - |suffix|..] == suffix
  }

  /** `needle` occurs in `hay` starting at offset `i`. */
  predicate OccursAt(hay: string, needle: string, i: int) {
    0 <= i && i + |needle| <= |hay| && hay[i..i + |needle|] == needle
  }

  /** Python's `needle in hay` on strings. */
  predicate Contains(hay: string, needle: string)
    decreases |hay|
  {
    IsPrefix(needle, hay) || (hay != [] && Contains(hay[1..], needle))
  }

  /** Containment is an occurrence at some offset. */
  lemma {:induction false} ContainsAt(hay: string, needle: string)
    ensures Contains(hay, needle) <==> exists i :: OccursAt(hay, needle, i)
    decreases |hay|
  {
    if IsPrefix(needle, hay) {
      assert OccursAt(hay, needle, 0);
    } else if hay == [] {
    } else {
      ContainsAt(hay[1..], needle);
      if exists i :: OccursAt(hay, needle, i) {
        var i :| OccursAt(hay, needle, i);
        assert i != 0;
        assert OccursAt(hay[1..], needle, i - 1);
      }
      if Contains(hay[1..], needle) {
        var j :| OccursAt(hay[1..], needle, j);
        assert hay[j + 1..j + 1 + |needle|] == hay[1..][j..j + |needle|];
        assert OccursAt(hay, needle, j + 1);
      }
    }
  }

  /** A string contains every piece of itself. */
  lemma ContainsSlice(hay: string, i: nat, j: nat)
    requires i <= j <= |hay|
    ensures Contains(hay, hay[i..j])
  {
    ContainsAt(hay, hay[i..j]);
    assert OccursAt(hay, hay[i..j], i);
  }

  /** Python's `s.split(sep)` generalised to a set of separators: the pieces
      between separator occurrences, empty pieces included. */
  function SplitOn(s: string, seps: set<char>): (r: seq<string>)
    ensures |r| >= 1
    ensures forall k, i :: 0 <= k < |r| && 0 <= i < |r[k]| ==> r[k][i] !in seps
    decreases |s|
  {
    if s == [] then [""]
    else
      var rest := SplitOn(s[1..], seps);
      if s[0] in seps then [""] + rest
      else [[s[0]] + rest[0]] + rest[1..]
  }

  /** Every character of a piece of `SplitOn(s, seps)` comes from `s`. */
  lemma {:induction false} SplitOnChars(s: string, seps: set<char>, k: nat, j: nat)
    requires k < |SplitOn(s, seps)| && j < |SplitOn(s, seps)[k]|
    ensures exists i :: 0 <= i < |s| && s[i] == SplitOn(s, seps)[k][j]
    decreases |s|
  {
    var rest := SplitOn(s[1..], seps);
    if s[0] in seps {
      assert SplitOn(s, seps)[k] == rest[k - 1];
      SplitOnChars(s[1..], seps, k - 1, j);
      var i :| 0 <= i < |s[1..]| && s[1..][i] == rest[k - 1][j];
      assert s[i + 1] == s[1..][i];
    } else if k == 0 && j == 0 {
      assert s[0] == SplitOn(s, seps)[k][j];
    } else if k == 0 {
      assert SplitOn(s, seps)[0][j] == rest[0][j - 1];
      SplitOnChars(s[1..], seps, 0, j - 1);
      var i :| 0 <= i < |s[1..]| && s[1..][i] == rest[0][j - 1];
      assert s[i + 1] == s[1..][i];
    } else {
      assert SplitOn(s, seps)[k] == rest[k];
      SplitOnChars(s[1..], seps, k, j);
      var i :| 0 <= i < |s[1..]| && s[1..][i] == rest[k][j];
      assert s[i + 1] == s[1..][i];
    }
  }

  /** Every character of `s` that is not a separator lands in some piece. */
  lemma {:induction false} SplitOnKeeps(s: string, seps: set<char>, i: nat)
    requires i < |s| && s[i] !in seps
    ensures exists k, j ::
      0 <= k < |SplitOn(s, seps)| && 0 <= j < |SplitOn(s, seps)[k]| && SplitOn(s, seps)[k][j] == s[i]
    decreases |s|
  {
    var r := SplitOn(s, seps);
    var rest := SplitOn(s[1..], seps);
    if i == 0 {
      assert r[0][0] == s[0];
    } else {
      SplitOnKeeps(s[1..], seps, i - 1);
      var k, j :| 0 <= k < |rest| && 0 <= j < |rest[k]| && rest[k][j] == s[1..][i - 1];
      if s[0] in seps {
        assert r[k + 1][j] == s[i];
      } else if k == 0 {
        assert r[0][j + 1] == s[i];
      } else {
        assert r[k][j] == s[i];
      }
    }
  }

  /** `sep.join(parts)` */
  function Join(parts: seq<string>, sep: string): string
    decreases |parts|
  {
    if parts == [] then ""
    else if |parts| == 1 then parts[0]
    else parts[0] + sep + Join(parts[1..], sep)
  }

  /** Splitting on one separator and joining with it gives the string back. */
  lemma {:induction false} JoinSplit(s: string, c: char)
    ensures Join(SplitOn(s, {c}), [c]) == s
    decreases |s|
  {
    if s != [] {
      var rest := SplitOn(s[1..], {c});
      JoinSplit(s[1..], c);
      if s[0] == c {
        assert SplitOn(s, {c}) == [""] + rest;
        assert ([""] + rest)[1..] == rest;
      } else {
        var r := [[s[0]] + rest[0]] + rest[1..];
        assert SplitOn(s, {c}) == r;
        if |rest| == 1 {
          assert Join(rest, [c]) == rest[0];
        } else {
          assert Join(rest, [c]) == rest[0] + [c] + Join(rest[1..], [c]);
          assert r[1..] == rest[1..];
        }
      }
    }
  }

  /** Joining non-empty parts that do not contain the separator loses
      nothing: different lists of such parts join to different strings. */
  lemma {:induction false} JoinInjective(p: seq<string>, q: seq<string>, c: char)
    requires forall i :: 0 <= i < |p| ==> p[i] != [] && c !in p[i]
    requires forall i :: 0 <= i < |q| ==> q[i] != [] && c !in q[i]
    requires Join(p, [c]) == Join(q, [c])
    ensures p == q
    decreases |p|
  {
    if p == [] || q == [] {
      if p != [] {
        JoinHead(p, c);
      } else if q != [] {
        JoinHead(q, c);
      }
    } else {
      JoinHead(p, c);
      JoinHead(q, c);
      if |p[0]| == |q[0]| && |p| > 1 && |q| > 1 {
        JoinInjective(p[1..], q[1..], c);
        assert p == [p[0]] + p[1..];
        assert q == [q[0]] + q[1..];
      }
    }
  }

  /** A join starts with its first part, followed by the separator and the
      join of the rest when there is a rest. */
  lemma JoinHead(p: seq<string>, c: char)
    requires p != []
    ensures |Join(p, [c])| >= |p[0]| && Join(p, [c])[..|p[0]|] == p[0]
    ensures |p| == 1 ==> |Join(p, [c])| == |p[0]|
    ensures |p| > 1 ==> Join(p, [c])[|p[0]|] == c && Join(p, [c])[|p[0]| + 1..] == Join(p[1..], [c])
  {
  }

  /** The non-empty pieces of `s` split on `seps`: Python's argument-less
      `s.split()` after the separators have been replaced by spaces. */
  function Words(s: string, seps: set<char>): seq<string> {
    NonEmpty(SplitOn(s, seps))
  }

  function NonEmpty(parts: seq<string>): (r: seq<string>)
    ensures |r| <= |parts|
    ensures forall k :: 0 <= k < |r| ==> r[k] != [] && r[k] in parts
    decreases |parts|
  {
    if parts == [] then []
    else if parts[0] == [] then NonEmpty(parts[1..])
    else [parts[0]] + NonEmpty(parts[1..])
  }

  /** A string has no words exactly when it consists of separators only. */
  lemma {:induction false} WordsEmptyIff(s: string, seps: set<char>)
    ensures Words(s, seps) == [] <==> forall i :: 0 <= i < |s| ==> s[i] in seps
    decreases |s|
  {
    if s != [] {
      WordsEmptyIff(s[1..], seps);
      var rest := SplitOn(s[1..], seps);
      if s[0] in seps {
        assert SplitOn(s, seps) == [""] + rest;
        assert ([""] + rest)[1..] == rest;
        assert Words(s, seps) == Words(s[1..], seps);
        assert (forall i :: 0 <= i < |s| ==> s[i] in seps) <==>
               (forall i :: 0 <= i < |s[1..]| ==> s[1..][i] in seps) by {
          forall i | 0 <= i < |s[1..]| ensures s[1..][i] == s[i + 1] { }
        }
      } else {
        var parts := [[s[0]] + rest[0]] + rest[1..];
        assert SplitOn(s, seps) == parts;
        assert parts[0] != [];
        assert Words(s, seps) == [parts[0]] + NonEmpty(parts[1..]);
      }
    }
  }

  /** Decimal rendering of a count, as Python's str(int). */
  function NatToString(n: nat): (r: string)
    ensures r != [] && (forall i :: 0 <= i < |r| ==> IsDigit(r[i]))
    ensures |r| == 1 || r[0] != '0'
    decreases n
  {
    if n < 10 then [DigitChar(n)]
    else NatToString(n / 10) + [DigitChar(n % 10)]
  }

  function DigitChar(d: nat): (c: char)
    requires d < 10
    ensures IsDigit(c)
  {
    ('0' as int + d) as char
  }

  /** Value of a string of decimal digits. */
  function DecimalValue(s: string): nat
    requires forall i :: 0 <= i < |s| ==> IsDigit(s[i])
    decreases |s|
  {
    if s == [] then 0
    else 10 * DecimalValue(s[..|s| - 1]) + DigitValue(s[|s| - 1])
  }

  function DigitValue(c: char): (d: nat)
    requires IsDigit(c)
    ensures d < 10
  {
    c as int - '0' as int
  }

  /** Reading the rendering of a count back gives the count. */
  lemma {:induction false} DecimalRoundTrip(n: nat)
    ensures DecimalValue(NatToString(n)) == n
    decreases n
  {
    if n >= 10 {
      var r := NatToString(n);
      DecimalRoundTrip(n / 10);
      assert r[..|r| - 1] == NatToString(n / 10);
    }
  }

  /** "pkg.cls.mtd": the name under which a method is known. */
  function DottedName(pkg: string, cls: string, mtd: string): string {
    pkg + "." + cls + "." + mtd
  }

  /** The dotted name determines class and method when neither contains a
      dot (Java identifiers never do). */
  lemma DottedNameInjective(p1: string, c1: string, m1: string,
                             p2: string, c2: string, m2: string)
    requires '.' !in c1 && '.' !in m1 && '.' !in c2 && '.' !in m2
    requires DottedName(p1, c1, m1) == DottedName(p2, c2, m2)
    ensures p1 == p2 && c1 == c2 && m1 == m2
  {
    LastDotSplit(p1 + "." + c1, m1, p2 + "." + c2, m2);
    LastDotSplit(p1, c1, p2, c2);
  }

  /** `x + "." + m` with a dot-free `m` splits only at its last dot. */
  lemma LastDotSplit(x1: string, m1: string, x2: string, m2: string)
    requires '.' !in m1 && '.' !in m2
    requires x1 + "." + m1 == x2 + "." + m2
    ensures x1 == x2 && m1 == m2
  {
    var s := x1 + "." + m1;
    LastDot(x1, m1);
    LastDot(x2, m2);
    assert |x1| == |x2|;
    assert x1 == s[..|x1|] && m1 == s[|x1| + 1..];
    assert x2 == s[..|x2|] && m2 == s[|x2| + 1..];
  }

  /** In `x + "." + m` with a dot-free `m`, the last dot is the one at |x|. */
  lemma LastDot(x: string, m: string)
    requires '.' !in m
    ensures (x + "." + m)[|x|] == '.'
    ensures forall k :: |x| < k < |x + "." + m| ==> (x + "." + m)[k] != '.'
  {
    var s := x + "." + m;
    forall k | |x| < k < |s| ensures s[k] != '.' {
      assert s[k] == m[k - |x| - 1];
    }
  }
}
