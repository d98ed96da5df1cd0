/**
  The string operations the two list pages call.

  `String.prototype.trim` is modelled exactly as ECMAScript defines it
  (section 22.1.3.32 of ECMA-262: remove leading and trailing WhiteSpace and
  LineTerminator code points).

  `toLowerCase`, `includes` and `localeCompare` depend on Unicode case
  mapping and on the host's collation, so the model does not fix them: a
  `StringLib` value carries them as functions, and each property states the
  assumptions it needs about them. `Reference()` is one instance (ASCII case
  mapping, code-point substring search and ordinal comparison) that meets
  every assumption, so none of them is contradictory.
*/
module Text {
  import ListView

  // ---------------------------------------------------------------------
  // String.prototype.trim
  // ---------------------------------------------------------------------

  /** ECMAScript WhiteSpace (TAB, VT, FF, ZWNBSP and the Zs category) and
      LineTerminator (LF, CR, LS, PS) code points. */
  predicate IsWhitespace(c: char) {
    var n := c as int;
    || n == 0x09 || n == 0x0A || n == 0x0B || n == 0x0C || n == 0x0D
    || n == 0x20 || n == 0xA0 || n == 0x1680
    || (0x2000 <= n <= 0x200A)
    || n == 0x2028 || n == 0x2029 || n == 0x202F || n == 0x205F
    || n == 0x3000 || n == 0xFEFF
  }

  /** `s` without its leading whitespace: a suffix of `s`, everything cut
      off is whitespace, and it does not start with whitespace. */
  function TrimStart(s: string): (r: string)
    ensures |r| <= |s| && r == s[|s| - |r|..]
    ensures forall k :: 0 <= k < |s| - |r| ==> IsWhitespace(s[k])
    ensures r == [] || !IsWhitespace(r[0])
  {
    if s != [] && IsWhitespace(s[0]) then TrimStart(s[1..]) else s
  }

  /** `s` without its trailing whitespace: a prefix of `s`, everything cut
      off is whitespace, and it does not end with whitespace. */
  function TrimEnd(s: string): (r: string)
    ensures |r| <= |s| && r == s[..|r|]
    ensures forall k :: |r| <= k < |s| ==> IsWhitespace(s[k])
    ensures r == [] || !IsWhitespace(r[|r| - 1])
  {
    if s != [] && IsWhitespace(s[|s| - 1]) then TrimEnd(s[..|s| - 1]) else s
  }

  /** `r` is `s[i..i + |r|]` and everything of `s` outside that slice is
      whitespace. */
  ghost predicate TrimmedAt(s: string, r: string, i: int) {
    && 0 <= i <= |s| - |r|
    && r == s[i..i + |r|]
    && (forall k :: 0 <= k < i ==> IsWhitespace(s[k]))
    && (forall k :: i + |r| <= k < |s| ==> IsWhitespace(s[k]))
  }

  /** `s.trim()`: a slice of `s` with only whitespace around it, neither
      starting nor ending with whitespace; it is empty exactly when `s` is all
      whitespace. */
  function Trim(s: string): (r: string)
    ensures exists i :: TrimmedAt(s, r, i)
    ensures r != [] ==> !IsWhitespace(r[0]) && !IsWhitespace(r[|r| - 1])
    ensures r == [] <==> forall k :: 0 <= k < |s| ==> IsWhitespace(s[k])
  {
    var t := TrimStart(s);
    var r := TrimEnd(t);
    TrimSlice(s, t, r);
    r
  }

  lemma TrimSlice(s: string, t: string, r: string)
    requires t == TrimStart(s) && r == TrimEnd(t)
    ensures TrimmedAt(s, r, |s| - |t|)
    ensures r != [] ==> !IsWhitespace(r[0]) && !IsWhitespace(r[|r| - 1])
    ensures r == [] <==> forall k :: 0 <= k < |s| ==> IsWhitespace(s[k])
  {
    TrimSliceAt(s, t, r);
    TrimSliceEnds(s, t, r);
    TrimSliceEmpty(s, t, r);
  }

  lemma TrimSliceAt(s: string, t: string, r: string)
    requires t == TrimStart(s) && r == TrimEnd(t)
    ensures TrimmedAt(s, r, |s| - |t|)
  {
    TrimSliceBounds(s, t, r);
    TrimSliceTrailing(s, t, r);
  }

  lemma TrimSliceEnds(s: string, t: string, r: string)
    requires t == TrimStart(s) && r == TrimEnd(t)
    ensures r != [] ==> !IsWhitespace(r[0]) && !IsWhitespace(r[|r| - 1])
  {
    if r != [] {
      assert r[0] == t[0];
    }
  }

  lemma TrimSliceEmpty(s: string, t: string, r: string)
    requires t == TrimStart(s) && r == TrimEnd(t)
    ensures r == [] <==> forall k :: 0 <= k < |s| ==> IsWhitespace(s[k])
  {
    var i := |s| - |t|;
    if r == [] {
      TrimSliceAllWhitespace(s, t);
    } else {
      assert r[0] == t[0] == s[i];
    }
  }

  lemma TrimSliceBounds(s: string, t: string, r: string)
    requires |t| <= |s| && t == s[|s| - |t|..]
    requires |r| <= |t| && r == t[..|r|]
    ensures r == s[|s| - |t|..|s| - |t| + |r|]
  {
  }

  lemma TrimSliceTrailing(s: string, t: string, r: string)
    requires |t| <= |s| && t == s[|s| - |t|..]
    requires |r| <= |t| && forall k :: |r| <= k < |t| ==> IsWhitespace(t[k])
    ensures forall k :: |s| - |t| + |r| <= k < |s| ==> IsWhitespace(s[k])
  {
    var i := |s| - |t|;
    forall k | i + |r| <= k < |s| ensures IsWhitespace(s[k]) {
      assert s[k] == t[k - i];
    }
  }

  lemma TrimSliceAllWhitespace(s: string, t: string)
    requires |t| <= |s| && t == s[|s| - |t|..]
    requires forall k :: 0 <= k < |s| - |t| ==> IsWhitespace(s[k])
    requires forall k :: 0 <= k < |t| ==> IsWhitespace(t[k])
    ensures forall k :: 0 <= k < |s| ==> IsWhitespace(s[k])
  {
    var i := |s| - |t|;
    forall k | i <= k < |s| ensures IsWhitespace(s[k]) {
      assert s[k] == t[k - i];
    }
  }

  lemma TrimIdempotent(s: string)
    ensures Trim(Trim(s)) == Trim(s)
  {
    var r := Trim(s);
    if r != [] {
      assert TrimStart(r) == r;
      assert TrimEnd(r) == r;
    }
  }

  // ---------------------------------------------------------------------
  // The locale- and library-defined operations
  // ---------------------------------------------------------------------

  /** `toLowerCase`, `includes` and `localeCompare`, as the host provides
      them. */
  datatype StringLib = StringLib(
    toLowerCase: string -> string,
    includes: (string, string) -> bool,
    localeCompare: (string, string) -> int)

  /** The search box's test: `text.toLowerCase().includes(query.toLowerCase())`. */
  predicate Matches(lib: StringLib, text: string, query: string) {
    lib.includes(lib.toLowerCase(text), lib.toLowerCase(query))
  }

  /** What ECMAScript guarantees for the empty query: `"".toLowerCase()` is
      `""`, and every string includes `""`. */
  ghost predicate EmptyQueryMatches(lib: StringLib) {
    lib.toLowerCase("") == "" && forall s :: lib.includes(s, "")
  }

  lemma EmptyQueryMatchesEverything(lib: StringLib, text: string)
    requires EmptyQueryMatches(lib)
    ensures Matches(lib, text, "")
  {
  }

  // ---------------------------------------------------------------------
  // A reference instance
  // ---------------------------------------------------------------------

  function AsciiLowerChar(c: char): char {
    if 'A' <= c <= 'Z' then (c as int + 32) as char else c
  }

  function AsciiLower(s: string): (r: string)
    ensures |r| == |s|
    ensures forall i :: 0 <= i < |s| ==> r[i] == AsciiLowerChar(s[i])
  {
    if s == [] then [] else [AsciiLowerChar(s[0])] + AsciiLower(s[1..])
  }

  /** `t` occurs in `s` starting at position `i`. */
  predicate OccursAt(s: string, t: string, i: int) {
    0 <= i <= |s| - |t| && forall k :: 0 <= k < |t| ==> s[i + k] == t[k]
  }

  /** `s.includes(t)` as ECMAScript defines it: `t` occurs in `s` at some
      position. */
  function Contains(s: string, t: string): (b: bool)
    ensures b <==> exists i :: OccursAt(s, t, i)
  {
    if t <= s then
      assert OccursAt(s, t, 0);
      true
    else if s == [] then
      false
    else
      var b := Contains(s[1..], t);
      assert b ==> exists i :: OccursAt(s, t, i) by {
        if b {
          var j :| OccursAt(s[1..], t, j);
          forall k | 0 <= k < |t| ensures s[j + 1 + k] == t[k] {
            assert s[1..][j + k] == t[k];
          }
          assert OccursAt(s, t, j + 1);
        }
      }
      assert (exists i :: OccursAt(s, t, i)) ==> b by {
        if exists i :: OccursAt(s, t, i) {
          var i :| OccursAt(s, t, i);
          if i != 0 {
            forall k | 0 <= k < |t| ensures s[1..][i - 1 + k] == t[k] {
              assert s[i + k] == t[k];
            }
            assert OccursAt(s[1..], t, i - 1);
          }
        }
      }
      b
  }

  /** Ordinal comparison, code point by code point; a proper prefix is
      smaller. */
  function OrdinalCompare(a: string, b: string): int
    decreases |a|
  {
    if a == [] then (if b == [] then 0 else -1)
    else if b == [] then 1
    else if a[0] < b[0] then -1
    else if a[0] > b[0] then 1
    else OrdinalCompare(a[1..], b[1..])
  }

  lemma {:induction false} OrdinalAntisymmetric(a: string, b: string)
    ensures OrdinalCompare(a, b) == -OrdinalCompare(b, a)
    decreases |a|
  {
    if a != [] && b != [] && a[0] == b[0] {
      OrdinalAntisymmetric(a[1..], b[1..]);
    }
  }

  lemma {:induction false} OrdinalTransitive(a: string, b: string, c: string)
    requires OrdinalCompare(a, b) <= 0 && OrdinalCompare(b, c) <= 0
    ensures OrdinalCompare(a, c) <= 0
    decreases |a|
  {
    if a != [] && b != [] && c != [] && a[0] == b[0] && b[0] == c[0] {
      OrdinalTransitive(a[1..], b[1..], c[1..]);
    }
  }

  function Reference(): StringLib {
    StringLib(AsciiLower, Contains, OrdinalCompare)
  }

  lemma ReferenceIsPreorder()
    ensures ListView.TotalPreorder(Reference().localeCompare)
  {
    forall a, b ensures OrdinalCompare(a, b) <= 0 || OrdinalCompare(b, a) <= 0 {
      OrdinalAntisymmetric(a, b);
    }
    forall a, b, c | OrdinalCompare(a, b) <= 0 && OrdinalCompare(b, c) <= 0
      ensures OrdinalCompare(a, c) <= 0
    {
      OrdinalTransitive(a, b, c);
    }
  }

  lemma ReferenceMatchesEmptyQuery()
    ensures EmptyQueryMatches(Reference())
  {
    forall s ensures Contains(s, "") {
      assert "" <= s;
    }
  }
}
