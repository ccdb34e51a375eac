/**
 * The JavaScript string operations the portal relies on, over `string`
 * (a sequence of Unicode scalar values): `trim`, `toLowerCase`,
 * `toUpperCase` (ASCII letters only), `includes`, `replace` with a
 * one-character pattern, `split`/`join` on a one-character separator, and
 * the decimal rendering of a number inside a template literal.
 */
module Text {

  /** The characters `String.prototype.trim` removes: ECMAScript WhiteSpace and LineTerminator. */
  predicate IsWhitespace(c: char)
  {
    c == '\t' || c == '\n' || c == '\U{B}' || c == '\U{C}' || c == '\r' || c == ' '
    || c == '\U{A0}' || c == '\U{1680}' || ('\U{2000}' <= c <= '\U{200A}')
    || c == '\U{2028}' || c == '\U{2029}' || c == '\U{202F}' || c == '\U{205F}'
    || c == '\U{3000}' || c == '\U{FEFF}'
  }

  /** No whitespace at either end: what `trim` leaves behind. */
  predicate IsTrimmed(s: string)
  {
    s == [] || (!IsWhitespace(s[0]) && !IsWhitespace(s[|s| - 1]))
  }

  /** Where the text starts: the first index at or after `i` that is not whitespace (or the end). */
  function StartIndex(s: string, i: nat): (j: nat)
    requires i <= |s|
    ensures i <= j <= |s|
    ensures j == |s| || !IsWhitespace(s[j])
    decreases |s| - i
  {
    if i < |s| && IsWhitespace(s[i]) then StartIndex(s, i + 1) else i
  }

  /** Where the text ends: the last index at or before `n` after a non-whitespace character (or 0). */
  function EndIndex(s: string, n: nat): (j: nat)
    requires n <= |s|
    ensures j <= n
    ensures j == 0 || !IsWhitespace(s[j - 1])
  {
    if n > 0 && IsWhitespace(s[n - 1]) then EndIndex(s, n - 1) else n
  }

  /** `trimStart`: the suffix after the leading whitespace. */
  function TrimStart(s: string): string
  {
    s[StartIndex(s, 0)..]
  }

  /** `trimEnd`: the prefix before the trailing whitespace. */
  function TrimEnd(s: string): string
  {
    s[..EndIndex(s, |s|)]
  }

  /** `String.prototype.trim`: a part of `s` with no whitespace left at either end. */
  function Trim(s: string): (r: string)
    ensures IsTrimmed(r)
    ensures |r| <= |s|
  {
    var front := TrimStart(s);
    var t := TrimEnd(front);
    assert t != [] ==> t[0] == front[0];
    t
  }

  /** Only whitespace is skipped on the way to the start index. */
  lemma {:induction false} StartIndexSkipsWhitespace(s: string, i: nat, k: nat)
    requires i <= |s| && i <= k < StartIndex(s, i)
    ensures IsWhitespace(s[k])
    decreases |s| - i
  {
    if k > i {
      StartIndexSkipsWhitespace(s, i + 1, k);
    }
  }

  /** Only whitespace is skipped on the way back to the end index. */
  lemma {:induction false} EndIndexSkipsWhitespace(s: string, n: nat, k: nat)
    requires n <= |s| && EndIndex(s, n) <= k < n
    ensures IsWhitespace(s[k])
  {
    if k < n - 1 {
      EndIndexSkipsWhitespace(s, n - 1, k);
    }
  }

  /** `trim` removes whitespace and nothing else: what it drops at either end is whitespace. */
  lemma TrimDropsOnlyWhitespace(s: string)
    ensures forall k :: 0 <= k < StartIndex(s, 0) ==> IsWhitespace(s[k])
    ensures forall k :: |s| - |TrimStart(s)| + |Trim(s)| <= k < |s| ==> IsWhitespace(s[k])
    ensures Trim(s) == s[StartIndex(s, 0)..StartIndex(s, 0) + |Trim(s)|]
  {
    var front := TrimStart(s);
    var start := StartIndex(s, 0);
    forall k | 0 <= k < start
      ensures IsWhitespace(s[k])
    {
      StartIndexSkipsWhitespace(s, 0, k);
    }
    forall k | |s| - |front| + |Trim(s)| <= k < |s|
      ensures IsWhitespace(s[k])
    {
      EndIndexSkipsWhitespace(front, |front|, k - start);
    }
  }

  /** A string with no whitespace at either end is left alone by `trim`. */
  lemma TrimOfTrimmed(s: string)
    requires IsTrimmed(s)
    ensures Trim(s) == s
  {
  }

  /** Every character of `Trim(s)` is a character of `s`. */
  lemma TrimKeepsCharacters(s: string, i: nat)
    requires i < |Trim(s)|
    ensures exists k :: 0 <= k < |s| && s[k] == Trim(s)[i]
  {
    var k := StartIndex(s, 0) + i;
    assert Trim(s)[i] == TrimStart(s)[i] == s[k];
  }

  predicate IsUpper(c: char)
  {
    'A' <= c <= 'Z'
  }

  predicate IsLower(c: char)
  {
    'a' <= c <= 'z'
  }

  /** `toLowerCase` on one character, for the ASCII letters. */
  function LowerChar(c: char): (d: char)
    ensures !IsUpper(d)
    ensures IsWhitespace(d) <==> IsWhitespace(c)
  {
    if IsUpper(c) then (c as int + 32) as char else c
  }

  /** `toUpperCase` on one character, for the ASCII letters. */
  function UpperChar(c: char): (d: char)
    ensures !IsLower(d)
    ensures IsWhitespace(d) <==> IsWhitespace(c)
  {
    if IsLower(c) then (c as int - 32) as char else c
  }

  /**
   * `String.prototype.toLowerCase`: each character is replaced by its
   * lower-case form in place, so no upper-case letter is left.
   */
  function ToLower(s: string): (r: string)
    ensures |r| == |s|
    ensures forall i :: 0 <= i < |s| ==> r[i] == LowerChar(s[i])
    ensures forall i :: 0 <= i < |r| ==> !IsUpper(r[i])
  {
    if s == [] then [] else [LowerChar(s[0])] + ToLower(s[1..])
  }

  /** A string with no upper-case letter is its own lower-case form. */
  lemma ToLowerOfLower(s: string)
    requires forall i :: 0 <= i < |s| ==> !IsUpper(s[i])
    ensures ToLower(s) == s
  {
  }

  predicate StartsWith(s: string, prefix: string)
  {
    |prefix| <= |s| && s[..|prefix|] == prefix
  }

  predicate EndsWith(s: string, suffix: string)
  {
    |suffix| <= |s| && s[|s| - |suffix|..] == suffix
  }

  /** `String.prototype.includes`: `sub` occurs somewhere in `s`. */
  predicate Contains(s: string, sub: string)
    ensures Contains(s, sub) ==> |sub| <= |s|
    ensures sub == [] ==> Contains(s, sub)
    decreases |s|
  {
    StartsWith(s, sub) || (|s| > 0 && Contains(s[1..], sub))
  }

  /** A string contains every infix it was built from. */
  lemma {:induction false} ContainsInfix(a: string, b: string, c: string)
    ensures Contains(a + b + c, b)
  {
    if a == [] {
      assert (a + b + c)[..|b|] == b;
    } else {
      ContainsInfix(a[1..], b, c);
      assert (a + b + c)[1..] == a[1..] + b + c;
    }
  }

  /** `sub` occurs in `s` starting at index `i`. */
  predicate OccursAt(s: string, sub: string, i: nat)
  {
    i + |sub| <= |s| && s[i..i + |sub|] == sub
  }

  /** `includes` finds `sub` exactly when `sub` occurs in `s` at some index. */
  lemma {:induction false} ContainsIffOccurs(s: string, sub: string)
    ensures Contains(s, sub) <==> exists i: nat :: OccursAt(s, sub, i)
    decreases |s|
  {
    if Contains(s, sub) {
      if StartsWith(s, sub) {
        assert OccursAt(s, sub, 0);
      } else {
        ContainsIffOccurs(s[1..], sub);
        var i: nat :| OccursAt(s[1..], sub, i);
        assert s[1..][i..i + |sub|] == s[i + 1..i + 1 + |sub|];
        assert OccursAt(s, sub, i + 1);
      }
    }
    if exists i: nat :: OccursAt(s, sub, i) {
      var i: nat :| OccursAt(s, sub, i);
      ContainsInfix(s[..i], sub, s[i + |sub|..]);
      assert s == s[..i] + sub + s[i + |sub|..];
    }
  }

  /** Every character of a contained string occurs in the containing one. */
  lemma {:induction false} ContainedCharsOccur(s: string, sub: string, c: char)
    requires Contains(s, sub) && c in sub
    ensures c in s
  {
    if StartsWith(s, sub) {
      var i :| 0 <= i < |sub| && sub[i] == c;
      assert s[i] == c;
    } else {
      ContainedCharsOccur(s[1..], sub, c);
      assert s == [s[0]] + s[1..];
    }
  }

  /** `String.prototype.indexOf` for one character that occurs in `s`. */
  function IndexOf(s: string, c: char): (i: nat)
    requires c in s
    ensures i < |s| && s[i] == c && c !in s[..i]
  {
    if s[0] == c then 0 else 1 + IndexOf(s[1..], c)
  }

  /** `s.replace(from, to)` with one-character strings: only the first occurrence is replaced. */
  function ReplaceFirst(s: string, from: char, to: char): (r: string)
    ensures |r| == |s|
    ensures from in s ==> r == s[IndexOf(s, from) := to]
    ensures from !in s ==> r == s
  {
    if s == [] then []
    else if s[0] == from then [to] + s[1..]
    else [s[0]] + ReplaceFirst(s[1..], from, to)
  }

  /** The occurrence `replace` rewrites is the first one: the text before it is kept, and so is all after it. */
  lemma ReplaceFirstSplits(a: string, b: string, from: char, to: char)
    requires from !in a
    ensures ReplaceFirst(a + [from] + b, from, to) == a + [to] + b
  {
    var s := a + [from] + b;
    assert s[|a|] == from;
    assert s[|a| := to] == a + [to] + b;
  }

  /** `s.split(sep)` with a one-character separator: never empty, and no part holds the separator. */
  function Split(s: string, sep: char): (parts: seq<string>)
    ensures |parts| >= 1
    ensures forall i :: 0 <= i < |parts| ==> sep !in parts[i]
  {
    if s == [] then [""]
    else
      var rest := Split(s[1..], sep);
      if s[0] == sep then [""] + rest
      else [[s[0]] + rest[0]] + rest[1..]
  }

  /** A string without the separator splits into itself alone. */
  lemma {:induction false} SplitWithoutSeparator(a: string, sep: char)
    requires sep !in a
    ensures Split(a, sep) == [a]
  {
    if a != [] {
      SplitWithoutSeparator(a[1..], sep);
      assert a == [a[0]] + a[1..];
    }
  }

  /** The text before the first separator is the first part; the rest splits on its own. */
  lemma {:induction false} SplitAtFirst(a: string, b: string, sep: char)
    requires sep !in a
    ensures Split(a + [sep] + b, sep) == [a] + Split(b, sep)
  {
    var s := a + [sep] + b;
    if a == [] {
      assert s[1..] == b;
    } else {
      SplitAtFirst(a[1..], b, sep);
      assert s[1..] == a[1..] + [sep] + b;
      assert a == [a[0]] + a[1..];
    }
  }

  /**
   * `parts.join(sep)`: the parts in order with the separator between them, so
   * the text starts with the first part and, when no part holds the
   * separator, holds it exactly when there were at least two parts.
   */
  function Join(parts: seq<string>, sep: char): (r: string)
    ensures |parts| >= 1 ==> StartsWith(r, parts[0])
    ensures (forall i :: 0 <= i < |parts| ==> sep !in parts[i]) ==> (sep in r <==> |parts| >= 2)
  {
    if |parts| == 0 then ""
    else if |parts| == 1 then parts[0]
    else parts[0] + [sep] + Join(parts[1..], sep)
  }

  /** Extending the first part of a list extends the joined string by the same prefix. */
  lemma JoinExtendFirst(c: char, parts: seq<string>, sep: char)
    requires |parts| >= 1
    ensures Join([[c] + parts[0]] + parts[1..], sep) == [c] + Join(parts, sep)
  {
    var ext := [[c] + parts[0]] + parts[1..];
    assert ext[1..] == parts[1..];
  }

  /** Joining what `split` produced gives back the original string. */
  lemma {:induction false} JoinSplit(s: string, sep: char)
    ensures Join(Split(s, sep), sep) == s
  {
    if s != [] {
      var rest := Split(s[1..], sep);
      JoinSplit(s[1..], sep);
      if s[0] == sep {
        assert ([""] + rest)[1..] == rest;
        assert s == [sep] + s[1..];
      } else {
        JoinExtendFirst(s[0], rest, sep);
        assert s == [s[0]] + s[1..];
      }
    }
  }

  function DigitChar(d: nat): (c: char)
    requires d < 10
    ensures '0' <= c <= '9'
  {
    ('0' as int + d) as char
  }

  /** The decimal numeral of `n`, as a template literal renders a non-negative integer. */
  function Decimal(n: nat): (r: string)
    ensures |r| >= 1
    ensures forall i :: 0 <= i < |r| ==> '0' <= r[i] <= '9'
    // The canonical numeral: no leading zero, except the numeral of zero itself.
    ensures n == 0 <==> r == "0"
    ensures |r| == 1 || r[0] != '0'
  {
    if n < 10 then [DigitChar(n)] else Decimal(n / 10) + [DigitChar(n % 10)]
  }

  /** The value of a string of decimal digits. */
  function DecimalValue(s: string): nat
    requires forall i :: 0 <= i < |s| ==> '0' <= s[i] <= '9'
  {
    if s == [] then 0 else 10 * DecimalValue(s[..|s| - 1]) + (s[|s| - 1] as int - '0' as int)
  }

  /** Reading the numeral back gives the number: the rendering loses nothing. */
  lemma {:induction false} DecimalRoundTrip(n: nat)
    ensures DecimalValue(Decimal(n)) == n
  {
    var r := Decimal(n);
    if n < 10 {
      assert r[..|r| - 1] == [];
    } else {
      DecimalRoundTrip(n / 10);
      assert r[..|r| - 1] == Decimal(n / 10);
    }
  }
}
