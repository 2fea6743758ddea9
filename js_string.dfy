/**
 * The JavaScript string operations the handlers rely on, over `seq<char>`:
 * `trim`, `substring(0, n)`, `slice(-n)`, `replace(/[^\d]/g, '')`, `split`,
 * `toLowerCase`/`toUpperCase` (ASCII letters only), `startsWith`, `includes`,
 * and the decimal rendering of a non-negative integer (`${Date.now()}`).
 */
module JsString {
  import opened Wrappers


  /** The characters JavaScript's `trim` and the regular-expression class `\s` treat as
      white space: the WhiteSpace and LineTerminator code points of ECMAScript. */
  predicate IsSpace(c: char) {
    || c == '\t' || c == '\n' || c == '\U{000B}' || c == '\U{000C}' || c == '\r' || c == ' '
    || c == '\U{00A0}' || c == '\U{1680}' || ('\U{2000}' <= c <= '\U{200A}')
    || c == '\U{2028}' || c == '\U{2029}' || c == '\U{202F}' || c == '\U{205F}'
    || c == '\U{3000}' || c == '\U{FEFF}'
  }

  /** The class `\d` of a JavaScript regular expression: ASCII digits only. */
  predicate IsDigit(c: char) {
    '0' <= c <= '9'
  }

  predicate IsUpperAscii(c: char) {
    'A' <= c <= 'Z'
  }

  predicate IsLowerAscii(c: char) {
    'a' <= c <= 'z'
  }

  /** `[A-Za-z0-9]` */
  predicate IsAlnumAscii(c: char) {
    IsUpperAscii(c) || IsLowerAscii(c) || IsDigit(c)
  }

  predicate AllSpace(s: string) {
    forall i :: 0 <= i < |s| ==> IsSpace(s[i])
  }

  predicate AllDigits(s: string) {
    forall i :: 0 <= i < |s| ==> IsDigit(s[i])
  }

  lemma AllSpaceCons(s: string)
    requires s != []
    ensures AllSpace(s) <==> IsSpace(s[0]) && AllSpace(s[1..])
  {
    if IsSpace(s[0]) && AllSpace(s[1..]) {
      forall i | 1 <= i < |s| ensures IsSpace(s[i]) {
        assert s[i] == s[1..][i - 1];
      }
    }
  }

  /** Leading white space removed: the longest suffix that does not start with white space. */
  function TrimStart(s: string): (r: string)
    ensures |r| <= |s| && r == s[|s| - |r|..]
    ensures r == [] || !IsSpace(r[0])
    ensures AllSpace(s[..|s| - |r|])
    ensures r == [] <==> AllSpace(s)
  {
    if s == [] then []
    else if IsSpace(s[0]) then
      var t := TrimStart(s[1..]);
      TrimStartStep(s, t);
      t
    else
      AllSpaceCons(s);
      s
  }

  /** The recursive case of `TrimStart`: a leading space is dropped with the rest. */
  lemma TrimStartStep(s: string, t: string)
    requires s != [] && IsSpace(s[0])
    requires |t| <= |s[1..]| && t == s[1..][|s[1..]| - |t|..]
    requires AllSpace(s[1..][..|s[1..]| - |t|])
    requires t == [] <==> AllSpace(s[1..])
    ensures |t| <= |s| && t == s[|s| - |t|..]
    ensures AllSpace(s[..|s| - |t|])
    ensures t == [] <==> AllSpace(s)
  {
    var p := s[..|s| - |t|];
    assert p[1..] == s[1..][..|s[1..]| - |t|];
    assert s[1..][|s[1..]| - |t|..] == s[|s| - |t|..];
    AllSpaceCons(p);
    AllSpaceCons(s);
  }

  /** Trailing white space removed: the longest prefix that does not end with white space. */
  function TrimEnd(s: string): (r: string)
    ensures |r| <= |s| && r == s[..|r|]
    ensures r == [] || !IsSpace(r[|r| - 1])
    ensures AllSpace(s[|r|..])
    ensures r == [] <==> AllSpace(s)
  {
    if s == [] then []
    else if IsSpace(s[|s| - 1]) then
      var t := TrimEnd(s[..|s| - 1]);
      TrimEndStep(s, t);
      t
    else
      AllSpaceSnoc(s);
      s
  }

  lemma AllSpaceSnoc(s: string)
    requires s != []
    ensures AllSpace(s) <==> IsSpace(s[|s| - 1]) && AllSpace(s[..|s| - 1])
  {
    if IsSpace(s[|s| - 1]) && AllSpace(s[..|s| - 1]) {
      forall i | 0 <= i < |s| - 1 ensures IsSpace(s[i]) {
        assert s[i] == s[..|s| - 1][i];
      }
    }
  }

  /** The recursive case of `TrimEnd`: a trailing space is dropped with the rest. */
  lemma TrimEndStep(s: string, t: string)
    requires s != [] && IsSpace(s[|s| - 1])
    requires |t| <= |s| - 1 && t == s[..|s| - 1][..|t|]
    requires AllSpace(s[..|s| - 1][|t|..])
    requires t == [] <==> AllSpace(s[..|s| - 1])
    ensures t == s[..|t|]
    ensures AllSpace(s[|t|..])
    ensures t == [] <==> AllSpace(s)
  {
    var p := s[|t|..];
    assert p[..|p| - 1] == s[..|s| - 1][|t|..];
    assert s[..|s| - 1][..|t|] == s[..|t|];
    AllSpaceSnoc(p);
    AllSpaceSnoc(s);
  }

  /** `s.trim()` */
  function Trim(s: string): string {
    TrimEnd(TrimStart(s))
  }

  /** `s.trim().length === 0` holds exactly for strings made only of white space. */
  lemma TrimEmptyIff(s: string)
    ensures Trim(s) == [] <==> AllSpace(s)
  {
  }

  /** A trimmed string neither starts nor ends with white space. */
  lemma TrimmedEnds(s: string)
    ensures Trim(s) == [] || (!IsSpace(Trim(s)[0]) && !IsSpace(Trim(s)[|Trim(s)| - 1]))
  {
    var t := TrimStart(s);
    var r := TrimEnd(t);
    if r != [] {
      assert r[0] == t[0];
    }
  }

  /** A trimmed string sits inside the original. */
  lemma TrimIsInfix(s: string)
    ensures exists i :: 0 <= i <= |s| - |Trim(s)| && OccursAt(s, Trim(s), i)
  {
    var t := TrimStart(s);
    var r := TrimEnd(t);
    var i := |s| - |t|;
    assert r == Trim(s) && t == s[i..] && r == t[..|r|];
    assert s[i..i + |r|] == s[i..][..|r|];
    assert OccursAt(s, Trim(s), i);
  }

  /** `s.substring(0, n)` for a non-negative `n`. */
  function Take(s: string, n: nat): (r: string)
    ensures |r| == if |s| <= n then |s| else n
    ensures r == s[..|r|]
  {
    if |s| <= n then s else s[..n]
  }

  /** `s.slice(-n)` for a positive `n`: the last `n` characters, or all of a shorter string. */
  function Last(s: string, n: nat): (r: string)
    ensures |r| == if |s| <= n then |s| else n
    ensures r == s[|s| - |r|..]
  {
    if |s| <= n then s else s[|s| - n..]
  }

  /** `s.replace(/[^\d]/g, '')`: every character that is not an ASCII digit removed. */
  function DigitsOnly(s: string): (r: string)
    ensures AllDigits(r)
    ensures |r| <= |s|
  {
    if s == [] then []
    else if IsDigit(s[0]) then [s[0]] + DigitsOnly(s[1..])
    else DigitsOnly(s[1..])
  }

  lemma {:induction false} DigitsOnlyAppend(a: string, b: string)
    ensures DigitsOnly(a + b) == DigitsOnly(a) + DigitsOnly(b)
  {
    if a == [] {
      assert a + b == b;
    } else {
      assert (a + b)[1..] == a[1..] + b;
      DigitsOnlyAppend(a[1..], b);
    }
  }

  /** A string of digits is kept as it is, so digit stripping is idempotent. */
  lemma {:induction false} DigitsOnlyKeepsDigits(s: string)
    requires AllDigits(s)
    ensures DigitsOnly(s) == s
  {
    if s != [] {
      DigitsOnlyKeepsDigits(s[1..]);
    }
  }

  lemma DigitsOnlyIdempotent(s: string)
    ensures DigitsOnly(DigitsOnly(s)) == DigitsOnly(s)
  {
    DigitsOnlyKeepsDigits(DigitsOnly(s));
  }

  /** Every digit of the input survives, in order: the count of each digit is the same. */
  lemma {:induction false} DigitsOnlyKeepsEveryDigit(s: string, c: char)
    requires IsDigit(c)
    ensures multiset(DigitsOnly(s))[c] == multiset(s)[c]
  {
    if s != [] {
      assert s == [s[0]] + s[1..];
      DigitsOnlyKeepsEveryDigit(s[1..], c);
    }
  }

  function LowerChar(c: char): (d: char)
    ensures !IsUpperAscii(d)
    ensures IsUpperAscii(c) || d == c
  {
    if IsUpperAscii(c) then (c as int + 32) as char else c
  }

  function UpperChar(c: char): (d: char)
    ensures !IsLowerAscii(d)
    ensures IsLowerAscii(c) || d == c
  {
    if IsLowerAscii(c) then (c as int - 32) as char else c
  }

  /** `toLowerCase` on the ASCII letters; every other character is kept. */
  function ToLower(s: string): (r: string)
    ensures |r| == |s|
    ensures forall i :: 0 <= i < |s| ==> r[i] == LowerChar(s[i])
  {
    if s == [] then [] else [LowerChar(s[0])] + ToLower(s[1..])
  }

  /** `toUpperCase` on the ASCII letters; every other character is kept. */
  function ToUpper(s: string): (r: string)
    ensures |r| == |s|
    ensures forall i :: 0 <= i < |s| ==> r[i] == UpperChar(s[i])
  {
    if s == [] then [] else [UpperChar(s[0])] + ToUpper(s[1..])
  }

  lemma ToLowerIdempotent(s: string)
    ensures ToLower(ToLower(s)) == ToLower(s)
  {
  }

  predicate StartsWith(s: string, p: string) {
    |p| <= |s| && s[..|p|] == p
  }

  /** `p` occurs in `s` starting at index `i`. */
  predicate OccursAt(s: string, p: string, i: int) {
    0 <= i <= |s| - |p| && s[i..i + |p|] == p
  }

  /** `s.includes(p)`: `p` occurs somewhere in `s`. */
  function Includes(s: string, p: string): (r: bool)
    ensures r <==> exists i :: OccursAt(s, p, i)
    decreases |s|
  {
    if |s| < |p| then false
    else if s[..|p|] == p then
      assert OccursAt(s, p, 0);
      true
    else
      var r := Includes(s[1..], p);
      assert r ==> exists i :: OccursAt(s, p, i) by {
        if r {
          var i :| OccursAt(s[1..], p, i);
          assert s[1..][i..i + |p|] == s[i + 1..i + 1 + |p|];
          assert OccursAt(s, p, i + 1);
        }
      }
      assert (exists i :: OccursAt(s, p, i)) ==> r by {
        if exists i :: OccursAt(s, p, i) {
          var i :| OccursAt(s, p, i);
          assert i != 0;
          assert s[1..][i - 1..i - 1 + |p|] == s[i..i + |p|];
          assert OccursAt(s[1..], p, i - 1);
        }
      }
      r
  }

  /** A string cannot start with `p` when one of their characters differs. */
  lemma NotStartsWith(s: string, p: string, k: nat)
    requires k < |p| && k < |s| && s[k] != p[k]
    ensures !StartsWith(s, p)
  {
    if |p| <= |s| {
      assert s[..|p|][k] == s[k];
    }
  }

  /** `p` does not occur in a string that lacks one of `p`'s characters. */
  lemma AbsentCharExcludes(s: string, p: string, k: nat)
    requires k < |p| && p[k] !in s
    ensures !Includes(s, p)
  {
    forall i | 0 <= i <= |s| - |p| ensures !OccursAt(s, p, i) {
      assert s[i..i + |p|][k] == s[i + k];
    }
  }

  /** Index of the final occurrence of `c` (`lastIndexOf`). */
  function LastIndexOf(s: string, c: char): (r: Option<nat>)
    ensures r.Some? ==> r.value < |s| && s[r.value] == c && c !in s[r.value + 1..]
    ensures r.None? <==> c !in s
  {
    if s == [] then None
    else if s[|s| - 1] == c then Some(|s| - 1)
    else
      var r := LastIndexOf(s[..|s| - 1], c);
      assert s == s[..|s| - 1] + [s[|s| - 1]];
      if r.Some? then
        assert s[r.value + 1..] == s[..|s| - 1][r.value + 1..] + [s[|s| - 1]];
        r
      else None
  }

  /** The last `c` of `a + [c] + e` is the one after `a` when `e` holds none. */
  lemma LastIndexOfSplit(a: string, c: char, e: string)
    requires c !in e
    ensures LastIndexOf(a + [c] + e, c) == Some(|a|)
  {
    var s := a + [c] + e;
    var r := LastIndexOf(s, c);
    assert s[|a|] == c;
    assert s[|a| + 1..] == e;
  }

  /** The number of occurrences of `d` in `s`. */
  function Count(s: string, d: char): nat {
    if s == [] then 0 else (if s[0] == d then 1 else 0) + Count(s[1..], d)
  }

  lemma {:induction false} CountAppend(a: string, b: string, d: char)
    ensures Count(a + b, d) == Count(a, d) + Count(b, d)
  {
    if a == [] {
      assert a + b == b;
    } else {
      assert (a + b)[1..] == a[1..] + b;
      CountAppend(a[1..], b, d);
    }
  }

  lemma {:induction false} CountZero(s: string, d: char)
    ensures Count(s, d) == 0 <==> d !in s
  {
    if s != [] {
      CountZero(s[1..], d);
      assert s == [s[0]] + s[1..];
    }
  }

  /** `s.split(d)` for a one-character separator: the pieces between the separators,
      so a string without `d` gives one piece and `""` gives `[""]`. */
  function Split(s: string, d: char): (r: seq<string>)
    ensures |r| == Count(s, d) + 1
    ensures forall k :: 0 <= k < |r| ==> d !in r[k]
  {
    if s == [] then [""]
    else
      var rest := Split(s[1..], d);
      if s[0] == d then [""] + rest
      else [[s[0]] + rest[0]] + rest[1..]
  }

  /** The first piece of `s.split(d)` is the text before the first `d`, or all of `s`. */
  lemma {:induction false} SplitHead(s: string, d: char)
    ensures |Split(s, d)[0]| <= |s| && Split(s, d)[0] == s[..|Split(s, d)[0]|]
    ensures d in s ==> s[|Split(s, d)[0]|] == d
    ensures d !in s ==> Split(s, d)[0] == s
  {
    if s != [] {
      SplitHead(s[1..], d);
      assert s == [s[0]] + s[1..];
    }
  }

  /** A word without the separator, then the separator: the word is the first piece and the
      rest splits on its own. */
  lemma {:induction false} SplitAfterWord(w: string, rest: string, d: char)
    requires d !in w
    ensures Split(w + [d] + rest, d) == [w] + Split(rest, d)
  {
    if w == [] {
      assert w + [d] + rest == [d] + rest;
      assert ([d] + rest)[1..] == rest;
    } else {
      var s := w + [d] + rest;
      assert s[0] == w[0] && s[1..] == w[1..] + [d] + rest;
      SplitAfterWord(w[1..], rest, d);
      assert [w[0]] + w[1..] == w;
    }
  }

  /** A string without the separator is a single piece. */
  lemma SplitWithoutSeparator(s: string, d: char)
    requires d !in s
    ensures Split(s, d) == [s]
  {
    CountZero(s, d);
    SplitHead(s, d);
  }

  /** `parts.join(d)` */
  function Join(parts: seq<string>, d: char): string
    requires |parts| >= 1
  {
    if |parts| == 1 then parts[0] else parts[0] + [d] + Join(parts[1..], d)
  }

  /** Splitting loses nothing: joining the pieces with the separator gives the string back. */
  lemma {:induction false} JoinSplit(s: string, d: char)
    ensures Join(Split(s, d), d) == s
  {
    if s != [] {
      var rest := Split(s[1..], d);
      JoinSplit(s[1..], d);
      if s[0] == d {
        assert Split(s, d)[1..] == rest;
      } else {
        var r := Split(s, d);
        if |rest| == 1 {
          assert r == [[s[0]] + rest[0]];
        } else {
          assert r[1..] == rest[1..];
          assert Join(rest, d) == rest[0] + [d] + Join(rest[1..], d);
        }
      }
    }
  }

  /** The value of a string of decimal digits. */
  function DigitsValue(s: string): nat
    requires AllDigits(s)
  {
    if s == [] then 0 else DigitsValue(s[..|s| - 1]) * 10 + (s[|s| - 1] as int - '0' as int)
  }

  /** `String(n)` for a non-negative integer: its decimal digits, most significant first. */
  function Decimal(n: nat): (r: string)
    ensures |r| >= 1 && AllDigits(r)
    ensures |r| > 1 ==> r[0] != '0'
  {
    var digit := ('0' as int + n % 10) as char;
    if n < 10 then [digit] else Decimal(n / 10) + [digit]
  }

  /** The decimal rendering reads back as the same number, so different numbers render differently. */
  lemma {:induction false} DecimalValue(n: nat)
    ensures DigitsValue(Decimal(n)) == n
  {
    var r := Decimal(n);
    if n >= 10 {
      DecimalValue(n / 10);
      assert r[..|r| - 1] == Decimal(n / 10);
    }
  }

  lemma DecimalInjective(m: nat, n: nat)
    ensures Decimal(m) == Decimal(n) ==> m == n
  {
    DecimalValue(m);
    DecimalValue(n);
  }
}
