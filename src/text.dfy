/**
 * The JavaScript string operations the source relies on, as functions on
 * `string` (a sequence of Unicode characters): `length` in UTF-16 code
 * units, `toLowerCase` restricted to ASCII letters, the `\s` character class,
 * `includes`, `trim` and `split(/\s+/)`.
 */
module Text {

  /** A character matched by the regular-expression class `\s` (white space and line terminators). */
  predicate IsWhitespace(c: char)
  {
    var n := c as int;
    (0x09 <= n <= 0x0D) || n == 0x20 || n == 0xA0 || n == 0x1680 || (0x2000 <= n <= 0x200A)
    || n == 0x2028 || n == 0x2029 || n == 0x202F || n == 0x205F || n == 0x3000 || n == 0xFEFF
  }

  /** The UTF-16 code units of one character: two, a surrogate pair, beyond U+FFFF. */
  function Utf16Units(c: char): nat
  {
    if c as int < 0x1_0000 then 1 else 2
  }

  /**
   * `s.length`: JavaScript counts UTF-16 code units, so a character outside
   * the Basic Multilingual Plane counts twice.
   */
  function Utf16Length(s: string): (r: nat)
    ensures |s| <= r <= 2 * |s|
    ensures r == |s| <==> forall i | 0 <= i < |s| :: s[i] as int < 0x1_0000
    decreases |s|
  {
    if s == [] then 0
    else
      var rest := Utf16Length(s[1..]);
      assert forall i | 1 <= i < |s| :: s[1..][i - 1] == s[i];
      Utf16Units(s[0]) + rest
  }

  predicate IsUpper(c: char)
  {
    'A' <= c <= 'Z'
  }

  /** `toLowerCase` on one character, for the ASCII letters only. */
  function LowerChar(c: char): (r: char)
    ensures !IsUpper(r)
    ensures IsWhitespace(r) == IsWhitespace(c)
    ensures !IsUpper(c) ==> r == c
  {
    if IsUpper(c) then (c as int + 32) as char else c
  }

  /** `toLowerCase`: every ASCII capital letter replaced by its small letter, nothing else changed. */
  function Lower(s: string): (r: string)
    ensures |r| == |s|
    ensures forall i :: 0 <= i < |s| ==> r[i] == LowerChar(s[i])
    decreases |s|
  {
    if s == [] then [] else [LowerChar(s[0])] + Lower(s[1..])
  }

  /** Lower-casing twice is lower-casing once. */
  lemma LowerIdempotent(s: string)
    ensures Lower(Lower(s)) == Lower(s)
  {
    assert forall i :: 0 <= i < |s| ==> Lower(Lower(s))[i] == Lower(s)[i];
  }

  predicate StartsWith(s: string, prefix: string)
  {
    |prefix| <= |s| && s[..|prefix|] == prefix
  }

  /** `hay.includes(needle)`: `needle` occurs in `hay` as a contiguous block. */
  predicate Contains(hay: string, needle: string)
    decreases |hay|
  {
    StartsWith(hay, needle) || (hay != [] && Contains(hay[1..], needle))
  }

  /** `needle` occurs in `hay` starting at some position `i`. */
  lemma {:induction false} ContainsAt(hay: string, needle: string)
    ensures Contains(hay, needle) <==> exists i :: 0 <= i <= |hay| && StartsWith(hay[i..], needle)
    decreases |hay|
  {
    if hay != [] {
      ContainsAt(hay[1..], needle);
      forall i | 1 <= i <= |hay|
        ensures hay[i..] == hay[1..][i - 1..]
      {
      }
      assert hay[0..] == hay;
      if Contains(hay[1..], needle) {
        var j :| 0 <= j <= |hay| - 1 && StartsWith(hay[1..][j..], needle);
        assert StartsWith(hay[j + 1..], needle);
      }
      if exists i :: 0 <= i <= |hay| && StartsWith(hay[i..], needle) {
        var i :| 0 <= i <= |hay| && StartsWith(hay[i..], needle);
        if i > 0 {
          assert StartsWith(hay[1..][i - 1..], needle);
        }
      }
    } else {
      assert hay[0..] == hay;
    }
  }

  /** Only white space: what `s.trim()` turns into the empty, falsy string. */
  predicate IsBlank(s: string)
  {
    forall i :: 0 <= i < |s| ==> IsWhitespace(s[i])
  }

  function TrimStart(s: string): (r: string)
    ensures r == [] || !IsWhitespace(r[0])
    ensures r == [] <==> IsBlank(s)
    decreases |s|
  {
    if s != [] && IsWhitespace(s[0]) then TrimStart(s[1..]) else s
  }

  function TrimEnd(s: string): (r: string)
    ensures r == [] || !IsWhitespace(r[|r| - 1])
    ensures r == [] <==> IsBlank(s)
    decreases |s|
  {
    if s != [] && IsWhitespace(s[|s| - 1]) then TrimEnd(s[..|s| - 1]) else s
  }

  /** `trim`: white space removed from both ends. */
  function Trim(s: string): (r: string)
  {
    TrimEnd(TrimStart(s))
  }

  /** `s.trim()` is the empty string exactly when `s` is blank. */
  lemma TrimEmptyIffBlank(s: string)
    ensures Trim(s) == [] <==> IsBlank(s)
  {
    var t := TrimStart(s);
    assert t != [] ==> !IsBlank(t);
  }

  /** No white-space character occurs in `s`. */
  predicate IsWord(s: string)
  {
    forall i :: 0 <= i < |s| ==> !IsWhitespace(s[i])
  }

  /**
   * `s.split(/\s+/)`: the pieces between maximal runs of white space. A run at
   * the start or the end gives an empty first or last piece, and the empty
   * string gives one empty piece.
   */
  function SplitOnWhitespace(s: string): (r: seq<string>)
    ensures |r| >= 1
    ensures |r| == 1 <==> IsWord(s)
    ensures forall k :: 0 <= k < |r| ==> IsWord(r[k])
    ensures r[0] == [] <==> s == [] || IsWhitespace(s[0])
    ensures r[|r| - 1] == [] <==> s == [] || IsWhitespace(s[|s| - 1])
    ensures forall k :: 0 < k < |r| - 1 ==> r[k] != []
    decreases |s|
  {
    if s == [] then [[]]
    else if !IsWhitespace(s[0]) then
      var rest := SplitOnWhitespace(s[1..]);
      [[s[0]] + rest[0]] + rest[1..]
    else if |s| > 1 && IsWhitespace(s[1]) then SplitOnWhitespace(s[1..])
    else [[]] + SplitOnWhitespace(s[1..])
  }

  /**
   * `pieces` put back together with `seps[k]` between `pieces[k]` and
   * `pieces[k + 1]`.
   */
  function Interleave(pieces: seq<string>, seps: seq<string>): string
    requires |pieces| >= 1 && |seps| == |pieces| - 1
    decreases |pieces|
  {
    if |pieces| == 1 then pieces[0]
    else pieces[0] + seps[0] + Interleave(pieces[1..], seps[1..])
  }

  /** The runs of white space that `split(/\s+/)` cuts `s` at, in order. */
  ghost function Separators(s: string): seq<string>
    decreases |s|
  {
    if s == [] then []
    else if !IsWhitespace(s[0]) then Separators(s[1..])
    else if |s| > 1 && IsWhitespace(s[1]) then
      var rest := Separators(s[1..]);
      if rest == [] then [[s[0]]] else [[s[0]] + rest[0]] + rest[1..]
    else [[s[0]]] + Separators(s[1..])
  }

  /** Putting one more character in front of the first piece puts it in front of the whole. */
  lemma InterleaveConsHead(c: char, pieces: seq<string>, seps: seq<string>)
    requires |pieces| >= 1 && |seps| == |pieces| - 1
    ensures Interleave([[c] + pieces[0]] + pieces[1..], seps) == [c] + Interleave(pieces, seps)
  {
    var longer := [[c] + pieces[0]] + pieces[1..];
    assert longer[1..] == pieces[1..];
  }

  /** Putting a white-space character in front of the first separator, after an empty first piece. */
  lemma InterleaveConsSeparator(c: char, pieces: seq<string>, seps: seq<string>)
    requires |pieces| >= 2 && pieces[0] == [] && |seps| == |pieces| - 1
    ensures Interleave(pieces, [[c] + seps[0]] + seps[1..]) == [c] + Interleave(pieces, seps)
  {
    var longer := [[c] + seps[0]] + seps[1..];
    assert longer[1..] == seps[1..];
  }

  /** An empty piece and a one-character separator in front. */
  lemma InterleaveConsEmpty(c: char, pieces: seq<string>, seps: seq<string>)
    requires |pieces| >= 1 && |seps| == |pieces| - 1
    ensures Interleave([[]] + pieces, [[c]] + seps) == [c] + Interleave(pieces, seps)
  {
    assert ([[]] + pieces)[1..] == pieces;
    assert ([[c]] + seps)[1..] == seps;
  }

  /** Every separator is a non-empty run of white space. */
  predicate BlankRuns(seps: seq<string>)
  {
    forall k | 0 <= k < |seps| :: seps[k] != [] && IsBlank(seps[k])
  }

  lemma {:induction false} SplitAtSeparators(s: string)
    ensures |Separators(s)| == |SplitOnWhitespace(s)| - 1
    ensures BlankRuns(Separators(s))
    ensures Interleave(SplitOnWhitespace(s), Separators(s)) == s
    decreases |s|
  {
    if s != [] {
      SplitAtSeparators(s[1..]);
      var r, seps := SplitOnWhitespace(s[1..]), Separators(s[1..]);
      assert s == [s[0]] + s[1..];
      if !IsWhitespace(s[0]) {
        InterleaveConsHead(s[0], r, seps);
      } else if |s| > 1 && IsWhitespace(s[1]) {
        assert s[1..][0] == s[1];
        assert |r| >= 2;
        InterleaveConsSeparator(s[0], r, seps);
        BlankRunsConsSeparator(s[0], seps);
      } else {
        InterleaveConsEmpty(s[0], r, seps);
        BlankRunsConsEmpty(s[0], seps);
      }
    }
  }

  lemma BlankRunsConsSeparator(c: char, seps: seq<string>)
    requires IsWhitespace(c) && seps != [] && BlankRuns(seps)
    ensures BlankRuns([[c] + seps[0]] + seps[1..])
  {
    var sep := [c] + seps[0];
    assert IsBlank(seps[0]);
    assert forall i | 1 <= i < |sep| :: sep[i] == seps[0][i - 1];
  }

  lemma BlankRunsConsEmpty(c: char, seps: seq<string>)
    requires IsWhitespace(c) && BlankRuns(seps)
    ensures BlankRuns([[c]] + seps)
  {
    assert forall k | 1 <= k < |seps| + 1 :: ([[c]] + seps)[k] == seps[k - 1];
  }

  /**
   * The pieces are exactly the text between the white-space runs: `s` is the
   * pieces joined back together with non-empty blank separators.
   */
  lemma SplitRecombines(s: string)
    ensures exists seps ::
      && |seps| == |SplitOnWhitespace(s)| - 1
      && (forall k | 0 <= k < |seps| :: seps[k] != [] && IsBlank(seps[k]))
      && Interleave(SplitOnWhitespace(s), seps) == s
  {
    SplitAtSeparators(s);
  }
}
