/**
 * Character classes and string helpers used by the classifier, the
 * extractor and the dashboard: Python's str.upper/str.lower on the
 * Latin-1 range, `in` on strings, str.endswith, and the regular
 * expression classes \d, \s and \w.
 */
module Text {

  predicate IsDigit(c: char) {
    '0' <= c <= '9'
  }

  /** Python's \s on the Latin-1 range. */
  predicate IsSpace(c: char) {
    var n := c as int;
    (9 <= n <= 13) || (28 <= n <= 32) || n == 0x85 || n == 0xA0
  }

  /**
   * Python's \w on the Latin-1 range: letters, digits (including the
   * superscripts and vulgar fractions, which str.isalnum accepts) and the
   * underscore; also Ÿ and Μ, the upper-case forms of ÿ and µ.
   */
  predicate IsWordChar(c: char) {
    var n := c as int;
    ('a' <= c <= 'z') || ('A' <= c <= 'Z') || IsDigit(c) || c == '_'
    || n == 0xAA || n == 0xB2 || n == 0xB3 || n == 0xB5 || n == 0xB9 || n == 0xBA
    || (0xBC <= n <= 0xBE)
    || (0xC0 <= n <= 0xFF && n != 0xD7 && n != 0xF7)
    || n == 0x178 || n == 0x39C
  }

  /**
   * The one-character upper-case mapping of the Latin-1 range (the one
   * re.IGNORECASE compares with). ß has no one-character upper case and
   * stays as it is here; str.upper expands it (see Upper).
   */
  function UpperChar(c: char): (u: char)
    ensures IsWordChar(c) <==> IsWordChar(u)
    ensures u == 'ß' <==> c == 'ß'
  {
    var n := c as int;
    if 'a' <= c <= 'z' || (0xE0 <= n <= 0xFE && n != 0xF7) then (n - 32) as char
    else if n == 0xFF then 0x178 as char
    else if n == 0xB5 then 0x39C as char
    else c
  }

  /** An upper-case character is its own upper case. */
  lemma UpperCharFixed(c: char)
    ensures UpperChar(UpperChar(c)) == UpperChar(c)
  {
  }

  /** str.lower on one character of the Latin-1 range, and on Ÿ and Μ (giving ÿ and μ). */
  function LowerChar(c: char): char {
    var n := c as int;
    if 'A' <= c <= 'Z' || (0xC0 <= n <= 0xDE && n != 0xD7) then (n + 32) as char
    else if n == 0x178 then 0xFF as char
    else if n == 0x39C then 0x3BC as char
    else c
  }

  /** Lower-casing undoes upper-casing on the lower-case letters of Latin-1, ÿ included. */
  lemma LowerUndoesUpper(c: char)
    requires 'a' <= c <= 'z' || (0xE0 <= c as int <= 0xFF && c as int != 0xF7)
    ensures LowerChar(UpperChar(c)) == c
  {
  }

  /** str.upper on one character: ß becomes "SS", every other character its upper case. */
  function UpperOf(c: char): string {
    if c == 'ß' then "SS" else [UpperChar(c)]
  }

  /**
   * str.upper on the Latin-1 range: without ß the length is kept and each
   * character is mapped on its own; the result has no lower-case letter left.
   */
  function Upper(s: string): (u: string)
    ensures (forall i :: 0 <= i < |s| ==> s[i] != 'ß') ==>
              |u| == |s| && forall i :: 0 <= i < |s| ==> u[i] == UpperChar(s[i])
    ensures forall j :: 0 <= j < |u| ==> u[j] != 'ß' && UpperChar(u[j]) == u[j]
  {
    if s == [] then []
    else
      UpperCharFixed(s[0]);
      UpperOf(s[0]) + Upper(s[1..])
  }

  /** Upper-casing one character gives its str.upper form: "SS" for ß. */
  lemma UpperOne(c: char)
    ensures Upper([c]) == UpperOf(c)
    ensures c == 'ß' ==> Upper([c]) == "SS"
  {
    assert [c][1..] == [];
  }

  /** Upper-casing works piece by piece. */
  lemma {:induction false} UpperAppend(a: string, b: string)
    ensures Upper(a + b) == Upper(a) + Upper(b)
    decreases |a|
  {
    if a == [] {
      assert a + b == b;
    } else {
      assert (a + b)[0] == a[0];
      assert (a + b)[1..] == a[1..] + b;
      UpperAppend(a[1..], b);
    }
  }

  /** Upper-casing an upper-cased string changes nothing. */
  lemma {:induction false} UpperIdempotent(s: string)
    ensures Upper(Upper(s)) == Upper(s)
    decreases |s|
  {
    if s != [] {
      UpperIdempotent(s[1..]);
      UpperAppend(UpperOf(s[0]), Upper(s[1..]));
    }
  }

  function Lower(s: string): (l: string)
    ensures |l| == |s|
    ensures forall i :: 0 <= i < |s| ==> l[i] == LowerChar(s[i])
  {
    if s == [] then [] else [LowerChar(s[0])] + Lower(s[1..])
  }

  predicate StartsWith(s: string, prefix: string) {
    |prefix| <= |s| && s[..|prefix|] == prefix
  }

  predicate EndsWith(s: string, suffix: string) {
    |suffix| <= |s| && s[|s| - |suffix|..] == suffix
  }

  /** Python's `w in s` on strings: w occurs as a contiguous piece of s. */
  predicate Contains(s: string, w: string)
    decreases |s|
  {
    StartsWith(s, w) || (s != [] && Contains(s[1..], w))
  }

  /** Python's any(word in s for word in words). */
  predicate ContainsAny(s: string, words: seq<string>) {
    exists i :: 0 <= i < |words| && Contains(s, words[i])
  }

  /** w sits in s at position i. */
  predicate OccursAt(s: string, w: string, i: nat) {
    i + |w| <= |s| && s[i..i + |w|] == w
  }

  /** Contains finds w exactly when w sits at some position of s. */
  lemma {:induction false} ContainsIff(s: string, w: string)
    ensures Contains(s, w) <==> exists i: nat :: OccursAt(s, w, i)
    decreases |s|
  {
    if StartsWith(s, w) {
      assert OccursAt(s, w, 0);
    } else if s == [] {
    } else {
      ContainsIff(s[1..], w);
      if Contains(s[1..], w) {
        var i: nat :| OccursAt(s[1..], w, i);
        assert s[i + 1..i + 1 + |w|] == s[1..][i..i + |w|];
        assert OccursAt(s, w, i + 1);
      } else {
        forall i: nat | OccursAt(s, w, i) ensures false {
          if i != 0 {
            assert s[1..][i - 1..i - 1 + |w|] == s[i..i + |w|];
            assert OccursAt(s[1..], w, i - 1);
          }
        }
      }
    }
  }
}
