/**
 * The JavaScript string operations the components rely on, over `string`
 * (a sequence of Unicode scalar values; JavaScript's UTF-16 code units are
 * not modelled): `replace(/\D/g, '')`, `substring`,
 * ASCII `toLowerCase`, `includes`, `trim` emptiness and `Array.join`.
 */
module Text {

  function Min(a: int, b: int): int { if a <= b then a else b }

  predicate IsDigit(c: char) { '0' <= c <= '9' }

  predicate AllDigits(s: string) { forall i :: 0 <= i < |s| ==> IsDigit(s[i]) }

  /** `s.replace(/\D/g, '')`: the digits of `s`, in order. */
  function Digits(s: string): (r: string)
    ensures AllDigits(r) && |r| <= |s|
    ensures AllDigits(s) ==> r == s
  {
    if s == [] then [] else (if IsDigit(s[0]) then [s[0]] else []) + Digits(s[1..])
  }

  lemma {:induction false} DigitsAppend(a: string, b: string)
    ensures Digits(a + b) == Digits(a) + Digits(b)
  {
    if a == [] {
      assert a + b == b;
    } else {
      assert (a + b)[1..] == a[1..] + b;
      DigitsAppend(a[1..], b);
    }
  }

  /** A string made only of separator characters has no digits. */
  lemma DigitsOfNonDigits(s: string)
    requires forall i :: 0 <= i < |s| ==> !IsDigit(s[i])
    ensures Digits(s) == []
  {
    if s != [] {
      DigitsOfNonDigits(s[1..]);
    }
  }

  /** Clamps a `substring` index into `[0, n]`, as JavaScript does. */
  function Clamp(i: int, n: nat): (r: nat)
    ensures r <= n
  {
    if i < 0 then 0 else if i > n then n else i
  }

  /**
   * `s.substring(start, end)`: both indices are clamped into `[0, |s|]`
   * and swapped when `start > end`.
   */
  function Substring(s: string, start: int, end: int): (r: string)
    ensures |r| <= |s|
    ensures 0 <= start <= end ==> r == s[Min(start, |s|)..Min(end, |s|)]
    ensures end < start <= 0 ==> r == []
  {
    var a := Clamp(start, |s|);
    var b := Clamp(end, |s|);
    if a <= b then s[a..b] else s[b..a]
  }

  /** ASCII lower-casing of one character. */
  function LowerChar(c: char): char {
    if 'A' <= c <= 'Z' then (c as int + 32) as char else c
  }

  /** `s.toLowerCase()`, restricted to ASCII letters. */
  function ToLower(s: string): (r: string)
    ensures |r| == |s|
    ensures forall i :: 0 <= i < |s| ==> r[i] == LowerChar(s[i])
  {
    seq(|s|, i requires 0 <= i < |s| => LowerChar(s[i]))
  }

  predicate StartsWith(s: string, p: string) { |p| <= |s| && s[..|p|] == p }

  /** `h.includes(n)`: `n` occurs somewhere in `h`. */
  predicate Includes(h: string, n: string)
    decreases |h|
  {
    StartsWith(h, n) || (h != [] && Includes(h[1..], n))
  }

  /** `Includes` agrees with "some window of `h` equals `n`". */
  lemma {:induction false} IncludesAt(h: string, n: string, i: nat)
    requires i + |n| <= |h| && h[i..i + |n|] == n
    ensures Includes(h, n)
    decreases i
  {
    if i > 0 {
      assert h[1..][i - 1..i - 1 + |n|] == h[i..i + |n|];
      IncludesAt(h[1..], n, i - 1);
    }
  }

  lemma {:induction false} IncludesWitness(h: string, n: string) returns (i: nat)
    requires Includes(h, n)
    ensures i + |n| <= |h| && h[i..i + |n|] == n
    decreases |h|
  {
    if StartsWith(h, n) {
      i := 0;
    } else {
      var j := IncludesWitness(h[1..], n);
      assert h[1..][j..j + |n|] == h[j + 1..j + 1 + |n|];
      i := j + 1;
    }
  }

  /** `n` is spelled by `h` from position `i` on. */
  predicate OccursAt(h: string, n: string, i: nat) {
    i + |n| <= |h| && h[i..i + |n|] == n
  }

  /** `h.includes(n)` holds exactly when `n` occurs in `h` at some position. */
  lemma IncludesIff(h: string, n: string)
    ensures Includes(h, n) <==> exists i: nat :: OccursAt(h, n, i)
  {
    if Includes(h, n) {
      var i := IncludesWitness(h, n);
      assert OccursAt(h, n, i);
    }
    forall i: nat | OccursAt(h, n, i)
      ensures Includes(h, n)
    {
      IncludesAt(h, n, i);
    }
  }

  /** `n` occurs in `a + n + b`. */
  lemma IncludesInfix(a: string, n: string, b: string)
    ensures Includes(a + n + b, n)
  {
    var h := a + n + b;
    assert h[|a|..|a| + |n|] == n;
    IncludesAt(h, n, |a|);
  }

  /** What occurs in `b` occurs in any string ending with `b`. */
  lemma IncludesInSuffix(a: string, b: string, n: string)
    requires Includes(b, n)
    ensures Includes(a + b, n)
  {
    var j := IncludesWitness(b, n);
    assert (a + b)[|a| + j..|a| + j + |n|] == b[j..j + |n|];
    IncludesAt(a + b, n, |a| + j);
  }

  /** What `trim()` removes: the ECMAScript WhiteSpace and LineTerminator characters. */
  predicate IsWhitespace(c: char) {
    var n := c as int;
    n == 0x09 || n == 0x0A || n == 0x0B || n == 0x0C || n == 0x0D || n == 0x20
    || n == 0xA0 || n == 0x1680 || (0x2000 <= n <= 0x200A) || n == 0x2028
    || n == 0x2029 || n == 0x202F || n == 0x205F || n == 0x3000 || n == 0xFEFF
  }

  /** `trimStart()`: leading white space removed. */
  function TrimStart(s: string): string
    decreases |s|
  {
    if s != [] && IsWhitespace(s[0]) then TrimStart(s[1..]) else s
  }

  /** `trimEnd()`: trailing white space removed. */
  function TrimEnd(s: string): string
    decreases |s|
  {
    if s != [] && IsWhitespace(s[|s| - 1]) then TrimEnd(s[..|s| - 1]) else s
  }

  /** `trim()`. */
  function Trim(s: string): string {
    TrimEnd(TrimStart(s))
  }

  predicate AllWhitespace(s: string) {
    forall i :: 0 <= i < |s| ==> IsWhitespace(s[i])
  }

  /** `!s.trim()`: every character is white space, so trimming leaves nothing. */
  predicate IsBlank(s: string): (r: bool)
    ensures r <==> Trim(s) == ""
  {
    TrimStartKeepsBlankness(s);
    TrimEndEmptyIffBlank(TrimStart(s));
    AllWhitespace(s)
  }

  lemma {:induction false} TrimStartKeepsBlankness(s: string)
    ensures AllWhitespace(TrimStart(s)) <==> AllWhitespace(s)
    decreases |s|
  {
    if s != [] && IsWhitespace(s[0]) {
      TrimStartKeepsBlankness(s[1..]);
      assert AllWhitespace(s) <==> AllWhitespace(s[1..]) by {
        if AllWhitespace(s[1..]) {
          forall i | 0 < i < |s| ensures IsWhitespace(s[i]) {
            assert s[i] == s[1..][i - 1];
          }
        }
      }
    }
  }

  lemma {:induction false} TrimEndEmptyIffBlank(s: string)
    ensures TrimEnd(s) == "" <==> AllWhitespace(s)
    decreases |s|
  {
    if s != [] && IsWhitespace(s[|s| - 1]) {
      TrimEndEmptyIffBlank(s[..|s| - 1]);
      assert AllWhitespace(s) <==> AllWhitespace(s[..|s| - 1]) by {
        if AllWhitespace(s[..|s| - 1]) {
          forall i | 0 <= i < |s| - 1 ensures IsWhitespace(s[i]) {
            assert s[i] == s[..|s| - 1][i];
          }
        }
      }
    } else if s != [] {
      assert !IsWhitespace(s[|s| - 1]);
    }
  }

  /** `parts.join(sep)`. */
  function Join(parts: seq<string>, sep: string): (r: string)
    ensures parts == [] ==> r == []
    ensures |parts| == 1 ==> r == parts[0]
    decreases |parts|
  {
    if parts == [] then []
    else if |parts| == 1 then parts[0]
    else parts[0] + sep + Join(parts[1..], sep)
  }

  /** Every part occurs in the joined string. */
  lemma {:induction false} JoinIncludesPart(parts: seq<string>, sep: string, i: nat)
    requires i < |parts|
    ensures Includes(Join(parts, sep), parts[i])
    decreases |parts|
  {
    if |parts| == 1 {
      IncludesInfix([], parts[0], []);
      assert [] + parts[0] + [] == parts[0];
    } else if i == 0 {
      IncludesInfix([], parts[0], sep + Join(parts[1..], sep));
      assert [] + parts[0] + (sep + Join(parts[1..], sep)) == Join(parts, sep);
    } else {
      JoinIncludesPart(parts[1..], sep, i - 1);
      var pre := parts[0] + sep;
      assert Join(parts, sep) == pre + Join(parts[1..], sep);
      IncludesInSuffix(pre, Join(parts[1..], sep), parts[i]);
    }
  }

  /** Number of occurrences of `c` in `s`. */
  function Count(s: string, c: char): nat {
    if s == [] then 0 else (if s[0] == c then 1 else 0) + Count(s[1..], c)
  }

  lemma {:induction false} CountAppend(a: string, b: string, c: char)
    ensures Count(a + b, c) == Count(a, c) + Count(b, c)
  {
    if a == [] {
      assert a + b == b;
    } else {
      assert (a + b)[1..] == a[1..] + b;
      CountAppend(a[1..], b, c);
    }
  }

  /** A digit string holds no occurrence of a non-digit character. */
  lemma CountInDigits(s: string, c: char)
    requires AllDigits(s) && !IsDigit(c)
    ensures Count(s, c) == 0
  {
    if s != [] {
      CountInDigits(s[1..], c);
    }
  }

  /** Decimal rendering of a natural number, as a template literal prints it. */
  function NatText(n: nat): (r: string)
    ensures |r| > 0 && AllDigits(r)
  {
    var d := ['0' + (n % 10) as char];
    if n < 10 then d else NatText(n / 10) + d
  }
}
