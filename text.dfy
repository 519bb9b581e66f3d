/** The string operations the preprocessor and the analysts use, on
    `seq<char>`: an ASCII model of `str.lower()` and `str.strip()`,
    substring search, `str.rstrip(c)`, the last piece of `str.split(sep)`
    and `sep.join(items)`. */
module Text {

  /** `c.lower()` for ASCII letters; every other character is unchanged. */
  function LowerChar(c: char): char {
    if 'A' <= c <= 'Z' then (c as int + 32) as char else c
  }

  function Lower(s: string): (r: string)
    ensures |r| == |s|
    ensures forall i :: 0 <= i < |s| ==> r[i] == LowerChar(s[i])
  {
    seq(|s|, i requires 0 <= i < |s| => LowerChar(s[i]))
  }

  /** Lowering twice is lowering once. */
  lemma LowerIdempotent(s: string)
    ensures Lower(Lower(s)) == Lower(s)
  {
    assert forall i :: 0 <= i < |s| ==> Lower(Lower(s))[i] == Lower(s)[i];
  }

  /** `pat` occurs in `s` at index `i`. */
  predicate MatchAt(s: string, pat: string, i: int) {
    0 <= i && i + |pat| <= |s| && s[i..i + |pat|] == pat
  }

  /** `pat in s` for strings: a match at the front, or one further on. */
  predicate Contains(s: string, pat: string)
    decreases |s|
  {
    |pat| <= |s| && (s[..|pat|] == pat || Contains(s[1..], pat))
  }

  /** `Contains` holds exactly when there is an index where `pat` matches. */
  lemma {:induction false} ContainsIff(s: string, pat: string)
    ensures Contains(s, pat) <==> exists i :: MatchAt(s, pat, i)
    decreases |s|
  {
    if Contains(s, pat) {
      if s[..|pat|] == pat {
        assert MatchAt(s, pat, 0);
      } else {
        ContainsIff(s[1..], pat);
        var i :| MatchAt(s[1..], pat, i);
        MatchShift(s, pat, 1, i);
      }
    } else if i :| MatchAt(s, pat, i) {
      if i != 0 {
        assert s[1..][i - 1..i - 1 + |pat|] == s[i..i + |pat|];
        assert MatchAt(s[1..], pat, i - 1);
        ContainsIff(s[1..], pat);
      }
    }
  }

  /** A match at index `j` of a suffix `s[k..]` is one at `k + j` of `s`. */
  lemma MatchShift(s: string, pat: string, k: nat, j: int)
    requires k <= |s| && MatchAt(s[k..], pat, j)
    ensures MatchAt(s, pat, k + j)
  {
    assert s[k + j..k + j + |pat|] == s[k..][j..j + |pat|];
  }

  /** Python's `str.isspace()` on ASCII: tab, line feed, vertical tab, form
      feed, carriage return, the four separators 0x1C-0x1F, and space. */
  predicate IsSpace(c: char) {
    9 <= c as int <= 13 || 28 <= c as int <= 32
  }

  /** `s.rstrip(c)`: drop every trailing `c`. The three ensures clauses
      determine the result. */
  function RStripChar(s: string, c: char): (r: string)
    ensures |r| <= |s| && r == s[..|r|]
    ensures forall i :: |r| <= i < |s| ==> s[i] == c
    ensures r == [] || r[|r| - 1] != c
    decreases |s|
  {
    if s != [] && s[|s| - 1] == c then RStripChar(s[..|s| - 1], c) else s
  }

  /** `s.rstrip()`: drop trailing whitespace. */
  function RStripSpace(s: string): (r: string)
    ensures |r| <= |s| && r == s[..|r|]
    ensures forall i :: |r| <= i < |s| ==> IsSpace(s[i])
    ensures r == [] || !IsSpace(r[|r| - 1])
    decreases |s|
  {
    if s != [] && IsSpace(s[|s| - 1]) then RStripSpace(s[..|s| - 1]) else s
  }

  /** `s.lstrip()`: drop leading whitespace. */
  function LStripSpace(s: string): (r: string)
    ensures |r| <= |s| && r == s[|s| - |r|..]
    ensures forall i :: 0 <= i < |s| - |r| ==> IsSpace(s[i])
    ensures r == [] || !IsSpace(r[0])
    decreases |s|
  {
    if s != [] && IsSpace(s[0]) then LStripSpace(s[1..]) else s
  }

  /** `r` is `s[i..]` cut to `|r|` characters, with only whitespace
      cut off on either side. */
  predicate TrimmedAt(s: string, r: string, i: int) {
    && 0 <= i <= |s| - |r|
    && s[i..i + |r|] == r
    && (forall k :: 0 <= k < i ==> IsSpace(s[k]))
    && (forall k :: i + |r| <= k < |s| ==> IsSpace(s[k]))
  }

  /** `s.strip()`: the result is a slice of `s` that neither starts nor ends
      with whitespace, and everything cut off on either side is whitespace. */
  function Strip(s: string): (r: string)
    ensures r == [] || (!IsSpace(r[0]) && !IsSpace(r[|r| - 1]))
    ensures exists i | 0 <= i <= |s| - |r| :: TrimmedAt(s, r, i)
  {
    var t := RStripSpace(s);
    var r := LStripSpace(t);
    assert s[|t| - |r|..|t| - |r| + |r|] == r;
    assert TrimmedAt(s, r, |t| - |r|);
    r
  }

  /** Where the last piece of `s.split(sep)` starts: the scan goes left to
      right from `i`, and every separator it meets starts a new piece after
      it; `p` is where the current piece starts. */
  function LastPieceStart(s: string, sep: string, i: nat, p: nat): (q: nat)
    requires |sep| > 0 && p <= i <= |s|
    ensures p <= q <= |s|
    decreases |s| - i
  {
    if i + |sep| > |s| then p
    else if MatchAt(s, sep, i) then LastPieceStart(s, sep, i + |sep|, i + |sep|)
    else LastPieceStart(s, sep, i + 1, p)
  }

  /** The scan ends past every separator: none starts inside the last
      piece. */
  lemma {:induction false} NoSepAfterStart(s: string, sep: string, i: nat, p: nat, j: int)
    requires |sep| > 0 && p <= i <= |s|
    requires forall k :: p <= k < i ==> !MatchAt(s, sep, k)
    requires LastPieceStart(s, sep, i, p) <= j
    ensures !MatchAt(s, sep, j)
    decreases |s| - i
  {
    if i + |sep| > |s| {
    } else if MatchAt(s, sep, i) {
      NoSepAfterStart(s, sep, i + |sep|, i + |sep|, j);
    } else {
      NoSepAfterStart(s, sep, i + 1, p, j);
    }
  }

  /** A piece that does not start at 0 starts right after a separator. */
  lemma {:induction false} SepBeforeStart(s: string, sep: string, i: nat, p: nat)
    requires |sep| > 0 && p <= i <= |s|
    requires p == 0 || MatchAt(s, sep, p - |sep|)
    ensures var q := LastPieceStart(s, sep, i, p); q == 0 || MatchAt(s, sep, q - |sep|)
    decreases |s| - i
  {
    if i + |sep| > |s| {
    } else if MatchAt(s, sep, i) {
      var k := i + |sep|;
      assert LastPieceStart(s, sep, i, p) == LastPieceStart(s, sep, k, k);
      assert MatchAt(s, sep, k - |sep|);
      SepBeforeStart(s, sep, k, k);
    } else {
      assert LastPieceStart(s, sep, i, p) == LastPieceStart(s, sep, i + 1, p);
      SepBeforeStart(s, sep, i + 1, p);
    }
  }

  /** A scan that meets no separator leaves the piece where it started. */
  lemma {:induction false} NoSepKeepsStart(s: string, sep: string, i: nat, p: nat)
    requires |sep| > 0 && p <= i <= |s|
    requires forall k :: i <= k ==> !MatchAt(s, sep, k)
    ensures LastPieceStart(s, sep, i, p) == p
    decreases |s| - i
  {
    if i + |sep| <= |s| {
      assert !MatchAt(s, sep, i);
      NoSepKeepsStart(s, sep, i + 1, p);
    }
  }

  /** `s.split(sep)[-1]`: the piece after the last separator that the
      left-to-right split finds, or all of `s` when `sep` does not occur. */
  function SplitLast(s: string, sep: string): (r: string)
    requires |sep| > 0
    ensures |r| <= |s| && r == s[|s| - |r|..]
  {
    s[LastPieceStart(s, sep, 0, 0)..]
  }

  /** The last piece holds no separator; when it is not all of `s`, a
      separator directly precedes it; when `sep` never occurs, it is `s`.
      These clauses pin the piece down only for a separator that cannot
      overlap itself: for `sep == "aa"` and `s == "aaa"` both `"a"` and `""`
      meet them. The marker `github.com/` does not overlap itself, which is
      what makes `Preprocessor.UsernameAfterLastMarker` exact. */
  lemma SplitLastSpec(s: string, sep: string)
    requires |sep| > 0
    ensures var r := SplitLast(s, sep);
      && (forall j :: |s| - |r| <= j ==> !MatchAt(s, sep, j))
      && (|r| < |s| ==> MatchAt(s, sep, |s| - |r| - |sep|))
      && ((forall j :: !MatchAt(s, sep, j)) ==> r == s)
  {
    forall j | LastPieceStart(s, sep, 0, 0) <= j
      ensures !MatchAt(s, sep, j)
    {
      NoSepAfterStart(s, sep, 0, 0, j);
    }
    SepBeforeStart(s, sep, 0, 0);
    if forall j :: !MatchAt(s, sep, j) {
      NoSepKeepsStart(s, sep, 0, 0);
    }
  }

  /** Sum of the lengths of `items`. */
  function TotalLength(items: seq<string>): nat {
    if items == [] then 0 else |items[0]| + TotalLength(items[1..])
  }

  /** `sep.join(items)`. Its length is that of the items plus one separator
      between each two neighbours. */
  function Join(items: seq<string>, sep: string): (r: string)
    ensures items == [] ==> r == ""
    ensures |items| == 1 ==> r == items[0]
    ensures |r| + |sep| == TotalLength(items) + |sep| * |items| || items == []
  {
    if items == [] then ""
    else if |items| == 1 then items[0]
    else
      var tail := Join(items[1..], sep);
      assert |sep| * |items| == |sep| + |sep| * |items[1..]|;
      items[0] + sep + tail
  }

  /** Joining two non-empty runs of items is joining each and putting one
      separator between them: the items appear in order, with `sep`
      exactly between neighbours. */
  lemma {:induction false} JoinAppend(a: seq<string>, b: seq<string>, sep: string)
    requires a != [] && b != []
    ensures Join(a + b, sep) == Join(a, sep) + sep + Join(b, sep)
    decreases |a|
  {
    assert (a + b)[0] == a[0];
    if |a| == 1 {
      assert (a + b)[1..] == b;
    } else {
      assert (a + b)[1..] == a[1..] + b;
      JoinAppend(a[1..], b, sep);
    }
  }

  /** Appending an item appends the separator and the item. */
  lemma JoinSnoc(items: seq<string>, x: string, sep: string)
    requires items != []
    ensures Join(items + [x], sep) == Join(items, sep) + sep + x
  {
    JoinAppend(items, [x], sep);
  }
}
