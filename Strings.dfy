/** The JavaScript string operations the screens apply to user input:
    `trim`, `indexOf`/`replace` with a string pattern, `toLowerCase` and
    `length` (which counts UTF-16 code units). */
module Strings {
  import opened Shared

  // ---------------------------------------------------------------- trim

  /** The characters `String.prototype.trim` removes: the ECMAScript
      WhiteSpace (tab, vertical tab, form feed, no-break space, byte-order
      mark, and every space separator) and LineTerminator code points.
      Among the ASCII characters these are exactly the space and the five
      controls tab to carriage return; all of them lie in the Basic
      Multilingual Plane, so each is one UTF-16 code unit. */
  predicate IsJsWhitespace(c: char)
    ensures c as int < 0x80 ==> (IsJsWhitespace(c) <==> c == ' ' || '\t' <= c <= '\r')
    ensures IsJsWhitespace(c) ==> c as int < 0x10000
  {
    || c == '\t' || c == '\n' || c == '\U{000B}' || c == '\U{000C}' || c == '\r'
    || c == ' ' || c == '\U{00A0}' || c == '\U{1680}'
    || ('\U{2000}' <= c <= '\U{200A}')
    || c == '\U{2028}' || c == '\U{2029}' || c == '\U{202F}' || c == '\U{205F}'
    || c == '\U{3000}' || c == '\U{FEFF}'
  }

  predicate AllWhitespace(s: string) {
    forall k :: 0 <= k < |s| ==> IsJsWhitespace(s[k])
  }

  /** `s` with its leading whitespace removed: a suffix of `s`. */
  function TrimStart(s: string): (r: string)
    ensures |r| <= |s| && r == s[|s| - |r|..]
    ensures AllWhitespace(s[..|s| - |r|])
    ensures r == [] || !IsJsWhitespace(r[0])
  {
    if |s| > 0 && IsJsWhitespace(s[0]) then
      var r := TrimStart(s[1..]);
      assert s[..|s| - |r|] == [s[0]] + s[1..][..|s| - 1 - |r|];
      r
    else
      s
  }

  /** `s` with its trailing whitespace removed: a prefix of `s`. */
  function TrimEnd(s: string): (r: string)
    ensures |r| <= |s| && r == s[..|r|]
    ensures AllWhitespace(s[|r|..])
    ensures r == [] || !IsJsWhitespace(r[|r| - 1])
  {
    if |s| > 0 && IsJsWhitespace(s[|s| - 1]) then
      var r := TrimEnd(s[..|s| - 1]);
      assert s[|r|..] == s[..|s| - 1][|r|..] + [s[|s| - 1]];
      r
    else
      s
  }

  /** `String.prototype.trim`: the slice `s[i..j]` left after removing the
      whitespace before `i` and after `j`; it neither starts nor ends with
      whitespace, and it is empty exactly when `s` is all whitespace. */
  function Trim(s: string): (r: string)
    ensures exists i, j :: 0 <= i <= j <= |s| && r == s[i..j] && AllWhitespace(s[..i]) && AllWhitespace(s[j..])
    ensures r == [] || (!IsJsWhitespace(r[0]) && !IsJsWhitespace(r[|r| - 1]))
    ensures r == [] <==> AllWhitespace(s)
  {
    var t := TrimStart(s);
    var r := TrimEnd(t);
    var i := |s| - |t|;
    assert r == s[i..i + |r|];
    assert s[i + |r|..] == t[|r|..];
    assert AllWhitespace(s[..i]) && AllWhitespace(s[i + |r|..]);
    r
  }

  /** Trimming twice is trimming once. */
  lemma TrimIdempotent(s: string)
    ensures Trim(Trim(s)) == Trim(s)
  {
    var r := Trim(s);
    assert TrimStart(r) == r;
    assert TrimEnd(r) == r;
  }

  // ------------------------------------------------------ indexOf, replace

  /** `pat` occurs in `s` starting at position `j`. */
  predicate OccursAt(s: string, pat: string, j: int) {
    0 <= j && j + |pat| <= |s| && s[j..j + |pat|] == pat
  }

  /** `i` is the position of the first occurrence of `pat` in `s`. */
  predicate FirstOccurrence(s: string, pat: string, i: int) {
    OccursAt(s, pat, i) && forall j :: 0 <= j < i ==> !OccursAt(s, pat, j)
  }

  lemma OccursAtShift(s: string, pat: string, j: int)
    requires |s| > 0 && j >= 0
    ensures OccursAt(s[1..], pat, j) <==> OccursAt(s, pat, j + 1)
  {
    if 0 <= j && j + 1 + |pat| <= |s| {
      assert s[1..][j..j + |pat|] == s[j + 1..j + 1 + |pat|];
    }
  }

  /** JavaScript `s.indexOf(pat)`, with None where JavaScript gives -1. */
  function IndexOf(s: string, pat: string): (r: Option<nat>)
    ensures r.Some? ==> FirstOccurrence(s, pat, r.value)
    ensures r.None? ==> forall j :: !OccursAt(s, pat, j)
    decreases |s|
  {
    if |pat| > |s| then None
    else if s[..|pat|] == pat then
      assert s[0..|pat|] == s[..|pat|];
      Some(0)
    else
      var rest := IndexOf(s[1..], pat);
      forall j | j >= 0 ensures OccursAt(s[1..], pat, j) <==> OccursAt(s, pat, j + 1) {
        OccursAtShift(s, pat, j);
      }
      assert !OccursAt(s, pat, 0) by { assert s[0..|pat|] == s[..|pat|]; }
      match rest
      case None =>
        assert forall j :: !OccursAt(s, pat, j) by {
          forall j ensures !OccursAt(s, pat, j) {
            if j > 0 { assert !OccursAt(s[1..], pat, j - 1); }
          }
        }
        None
      case Some(i) =>
        assert FirstOccurrence(s, pat, i + 1) by {
          forall j | 0 <= j < i + 1 ensures !OccursAt(s, pat, j) {
            if j > 0 { assert !OccursAt(s[1..], pat, j - 1); }
          }
        }
        Some(i + 1)
  }

  /** JavaScript `s.replace(pat, rep)` with a string pattern: the first
      occurrence of `pat` is replaced by `rep`; without one, `s` is returned
      as it is. (`rep` is taken literally: the modelled callers pass "".) */
  function ReplaceFirst(s: string, pat: string, rep: string): (r: string)
    ensures (forall j :: !OccursAt(s, pat, j)) ==> r == s
    ensures forall i :: FirstOccurrence(s, pat, i) ==> r == s[..i] + rep + s[i + |pat|..]
  {
    match IndexOf(s, pat)
    case None => s
    case Some(i) =>
      assert forall k :: FirstOccurrence(s, pat, k) ==> k == i by {
        forall k | FirstOccurrence(s, pat, k) ensures k == i {
        }
      }
      s[..i] + rep + s[i + |pat|..]
  }

  lemma OccursAtSingle(s: string, c: char, j: int)
    ensures OccursAt(s, [c], j) <==> 0 <= j < |s| && s[j] == c
  {
    if 0 <= j < |s| {
      assert s[j..j + 1] == [s[j]];
    }
  }

  /** Without a `c` in `s`, deleting the first `c` leaves `s` as it is. */
  lemma NoCharKept(s: string, c: char)
    requires c !in s
    ensures ReplaceFirst(s, [c], "") == s
  {
    forall j ensures !OccursAt(s, [c], j) {
      OccursAtSingle(s, c, j);
    }
  }

  /** Deleting the first occurrence of one character: the result is `s`
      without the character at `i`, its first `c`; every other character
      keeps its place and order. */
  lemma FirstCharDeleted(s: string, c: char) returns (i: nat)
    requires c in s
    ensures i < |s| && s[i] == c && c !in s[..i]
    ensures ReplaceFirst(s, [c], "") == s[..i] + s[i + 1..]
  {
    i := FirstIndexOf(s, c);
    OccursAtSingle(s, c, i);
    forall j | 0 <= j < i ensures !OccursAt(s, [c], j) {
      OccursAtSingle(s, c, j);
    }
    assert FirstOccurrence(s, [c], i);
    assert s[..i] + "" + s[i + 1..] == s[..i] + s[i + 1..];
  }

  /** What deleting the first `c` does to the length and the multiset. */
  lemma DeletedOnce(s: string, c: char)
    ensures c !in s ==> ReplaceFirst(s, [c], "") == s
    ensures c in s ==> |ReplaceFirst(s, [c], "")| == |s| - 1
    ensures multiset(ReplaceFirst(s, [c], "")) + (if c in s then multiset{c} else multiset{}) == multiset(s)
  {
    if c !in s {
      NoCharKept(s, c);
    } else {
      var i := FirstCharDeleted(s, c);
      assert s == s[..i] + [c] + s[i + 1..];
      MultisetWithout(s[..i], c, s[i + 1..]);
    }
  }

  lemma MultisetWithout(before: string, c: char, after: string)
    ensures multiset(before + after) + multiset{c} == multiset(before + [c] + after)
  {
    assert multiset(before + [c] + after) == multiset(before + [c]) + multiset(after);
  }

  lemma FirstIndexOf(s: string, c: char) returns (i: nat)
    requires c in s
    ensures i < |s| && s[i] == c && forall j :: 0 <= j < i ==> s[j] != c
  {
    i := 0;
    while s[i] != c
      invariant i < |s| && c in s[i..]
      invariant forall j :: 0 <= j < i ==> s[j] != c
      decreases |s| - i
    {
      assert s[i..] == [s[i]] + s[i + 1..];
      i := i + 1;
    }
  }

  // ---------------------------------------------------------- toLowerCase

  function LowerChar(c: char): char {
    if 'A' <= c <= 'Z' then (c as int - 'A' as int + 'a' as int) as char else c
  }

  /** No upper-case (ASCII) letter in `s`. */
  predicate IsLower(s: string) {
    forall k :: 0 <= k < |s| ==> !('A' <= s[k] <= 'Z')
  }

  /** `String.prototype.toLowerCase`, on the ASCII letters: the result has
      the same length, each character is the lower-case form of the one at
      the same place, no upper-case letter is left, and a string that is
      already lower case comes back unchanged. */
  function ToLower(s: string): (r: string)
    ensures |r| == |s| && IsLower(r)
    ensures forall k :: 0 <= k < |s| ==> r[k] == LowerChar(s[k])
    ensures IsLower(s) ==> r == s
  {
    seq(|s|, k requires 0 <= k < |s| => LowerChar(s[k]))
  }

  // --------------------------------------------------------------- length

  /** JavaScript `s.length`: the number of UTF-16 code units, where a code
      point beyond the Basic Multilingual Plane takes two. */
  function Utf16Length(s: string): (n: nat)
    ensures |s| <= n <= 2 * |s|
    ensures n == 0 <==> s == []
  {
    if s == [] then 0 else (if s[0] as int >= 0x10000 then 2 else 1) + Utf16Length(s[1..])
  }

  /** On text within the Basic Multilingual Plane the JavaScript length is
      the number of characters. */
  lemma {:induction false} Utf16LengthOfBmp(s: string)
    requires forall k :: 0 <= k < |s| ==> s[k] as int < 0x10000
    ensures Utf16Length(s) == |s|
  {
    if s != [] {
      Utf16LengthOfBmp(s[1..]);
    }
  }
}
