/**
 * The string operations of the Go and Java standard libraries that the bindings rely on:
 * `strings.Split`, `strings.Contains`, `strings.ToLower`, `String.lastIndexOf` and the
 * decimal rendering of `%d`, each with the property that pins it down.
 */
module Text {
  import opened Common

  /** True iff `prefix` is a prefix of `s`. */
  predicate StartsWith(s: string, prefix: string) {
    |prefix| <= |s| && s[..|prefix|] == prefix
  }

  /** True iff `suffix` is a suffix of `s`. */
  predicate EndsWith(s: string, suffix: string) {
    |suffix| <= |s| && s[|s| - |suffix|..] == suffix
  }

  /** The index of the first occurrence of `c` in `s`. */
  function IndexOf(s: string, c: char): (i: nat)
    requires c in s
    ensures i < |s| && s[i] == c && c !in s[..i]
  {
    if s[0] == c then 0 else 1 + IndexOf(s[1..], c)
  }

  /** The pieces of `parts` glued together with `sep` between consecutive pieces. */
  function Join(parts: seq<string>, sep: char): string {
    if |parts| == 0 then ""
    else if |parts| == 1 then parts[0]
    else parts[0] + [sep] + Join(parts[1..], sep)
  }

  /**
   * Go's `strings.Split(s, string(sep))`: the maximal pieces of `s` between occurrences of
   * `sep`. There is always at least one piece, no piece contains `sep`, and joining the
   * pieces with `sep` gives `s` back.
   */
  function Split(s: string, sep: char): (parts: seq<string>)
    ensures |parts| >= 1
    ensures forall i :: 0 <= i < |parts| ==> sep !in parts[i]
    ensures Join(parts, sep) == s
    decreases |s|
  {
    if sep !in s then [s]
    else
      var i := IndexOf(s, sep);
      var rest := Split(s[i + 1..], sep);
      var parts := [s[..i]] + rest;
      assert parts[1..] == rest;
      assert s == s[..i] + [sep] + s[i + 1..];
      parts
  }

  /** The first `c` of `a + [c] + b` is the one after `a` when `a` holds none. */
  lemma {:induction false} IndexOfAfter(a: string, c: char, b: string)
    requires c !in a
    ensures IndexOf(a + [c] + b, c) == |a|
  {
    if |a| > 0 {
      assert (a + [c] + b)[1..] == a[1..] + [c] + b;
      IndexOfAfter(a[1..], c, b);
    }
  }

  /** Splitting a joined text gives back the pieces it was joined from. */
  lemma {:induction false} SplitOfJoin(parts: seq<string>, sep: char)
    requires |parts| >= 1
    requires forall i :: 0 <= i < |parts| ==> sep !in parts[i]
    ensures Split(Join(parts, sep), sep) == parts
  {
    if |parts| > 1 {
      var head, tail := parts[0], Join(parts[1..], sep);
      var s := head + [sep] + tail;
      assert Join(parts, sep) == s;
      assert s[|head|] == sep;
      IndexOfAfter(head, sep, tail);
      assert s[..|head|] == head && s[|head| + 1..] == tail;
      assert Split(s, sep) == [head] + Split(tail, sep);
      SplitOfJoin(parts[1..], sep);
      assert parts == [head] + parts[1..];
    }
  }

  /** `sub` occurs in `s` starting at index `i`. */
  predicate OccursAt(s: string, sub: string, i: int) {
    0 <= i <= |s| - |sub| && s[i..i + |sub|] == sub
  }

  /** Occurrences in `s[1..]` are the occurrences in `s` past index 0, shifted by one. */
  lemma OccursInTail(s: string, sub: string)
    requires |s| > 0
    ensures forall i {:trigger OccursAt(s, sub, i)} :: OccursAt(s, sub, i) && i > 0 ==> OccursAt(s[1..], sub, i - 1)
    ensures forall i {:trigger OccursAt(s[1..], sub, i)} :: OccursAt(s[1..], sub, i) ==> OccursAt(s, sub, i + 1)
  {
    forall i | 0 <= i
      ensures OccursAt(s[1..], sub, i) <==> OccursAt(s, sub, i + 1)
    {
      if 0 <= i <= |s| - 1 - |sub| {
        assert s[1..][i..i + |sub|] == s[i + 1..i + 1 + |sub|];
      }
    }
  }

  /** Go's `strings.Contains`: `sub` occurs somewhere in `s`. */
  function Contains(s: string, sub: string): (b: bool)
    ensures b <==> exists i :: OccursAt(s, sub, i)
    decreases |s|
  {
    if |s| < |sub| then false
    else if s[..|sub|] == sub then assert OccursAt(s, sub, 0); true
    else
      assert !OccursAt(s, sub, 0);
      OccursInTail(s, sub);
      Contains(s[1..], sub)
  }

  /**
   * Java's `String.lastIndexOf(c)`: the index of the last occurrence of `c` in `s`,
   * or -1 when there is none.
   */
  function LastIndexOf(s: string, c: char): (i: int)
    ensures -1 <= i < |s|
    ensures i == -1 <==> c !in s
    ensures 0 <= i ==> s[i] == c && c !in s[i + 1..]
  {
    if |s| == 0 then -1
    else if s[|s| - 1] == c then |s| - 1
    else
      var i := LastIndexOf(s[..|s| - 1], c);
      assert s == s[..|s| - 1] + [s[|s| - 1]];
      assert 0 <= i ==> s[i + 1..] == s[..|s| - 1][i + 1..] + [s[|s| - 1]];
      i
  }

  /** The ASCII lower-case form of one character; other characters are kept. */
  function LowerChar(c: char): (l: char)
    ensures 'A' <= c <= 'Z' ==> 'a' <= l <= 'z' && l as int - c as int == 32
    ensures !('A' <= c <= 'Z') ==> l == c
  {
    if 'A' <= c <= 'Z' then (c as int + 32) as char else c
  }

  /** `strings.ToLower` on ASCII text: same length, every letter lowered. */
  function ToLower(s: string): (r: string)
    ensures |r| == |s|
    ensures forall i :: 0 <= i < |s| ==> r[i] == LowerChar(s[i])
  {
    seq(|s|, i requires 0 <= i < |s| => LowerChar(s[i]))
  }

  /** True iff `s` is a non-empty string of decimal digits. */
  predicate IsDigits(s: string) {
    |s| > 0 && forall i :: 0 <= i < |s| ==> '0' <= s[i] <= '9'
  }

  /** The character of one decimal digit. */
  function DigitChar(d: nat): (c: char)
    requires d < 10
    ensures '0' <= c <= '9' && c as int - '0' as int == d
  {
    ('0' as int + d) as char
  }

  /** The decimal digits of `n`, most significant first, without leading zeros. */
  function NatToDecimal(n: nat): (s: string)
    ensures IsDigits(s)
    ensures s[0] == '0' <==> n == 0
    ensures n == 0 ==> s == "0"
    decreases n
  {
    if n < 10 then [DigitChar(n)] else NatToDecimal(n / 10) + [DigitChar(n % 10)]
  }

  /** Go's `%d` verb: an optional minus sign followed by the decimal digits. */
  function IntToDecimal(n: int): (s: string)
    ensures n < 0 ==> |s| >= 2 && s[0] == '-' && IsDigits(s[1..]) && s[1] != '0'
    ensures 0 <= n ==> IsDigits(s) && (s[0] == '0' <==> n == 0)
    ensures n == 0 ==> s == "0"
    ensures forall c :: c in s ==> c == '-' || '0' <= c <= '9'
  {
    if n < 0 then "-" + NatToDecimal(-n) else NatToDecimal(n)
  }

  /** The number a string of decimal digits denotes. */
  function DecimalValue(s: string): nat
    requires forall i :: 0 <= i < |s| ==> '0' <= s[i] <= '9'
  {
    if |s| == 0 then 0
    else 10 * DecimalValue(s[..|s| - 1]) + (s[|s| - 1] as int - '0' as int)
  }

  /** Reads back a decimal integer with an optional leading minus sign. */
  function ParseInt(s: string): Option<int> {
    if |s| > 0 && s[0] == '-' then
      if IsDigits(s[1..]) then var v: int := DecimalValue(s[1..]); Some(-v) else None
    else if IsDigits(s) then Some(DecimalValue(s))
    else None
  }

  /** Reading the digits of `n` gives `n` back. */
  lemma {:induction false} DecimalValueOfNat(n: nat)
    ensures DecimalValue(NatToDecimal(n)) == n
    decreases n
  {
    if n >= 10 {
      var s := NatToDecimal(n);
      assert s[..|s| - 1] == NatToDecimal(n / 10);
      DecimalValueOfNat(n / 10);
    }
  }

  /** `%d` is read back by ParseInt, so distinct integers render differently. */
  lemma ParseIntOfDecimal(n: int)
    ensures ParseInt(IntToDecimal(n)) == Some(n)
  {
    if n < 0 {
      var digits := NatToDecimal(-n);
      var s := "-" + digits;
      assert IntToDecimal(n) == s;
      assert s[0] == '-' && s[1..] == digits;
      DecimalValueOfNat(-n);
      assert DecimalValue(digits) == -n;
    } else {
      var s := NatToDecimal(n);
      assert '0' <= s[0] <= '9';
      DecimalValueOfNat(n);
    }
  }

  /** Distinct integers have distinct `%d` renderings. */
  lemma DecimalInjective(m: int, n: int)
    requires IntToDecimal(m) == IntToDecimal(n)
    ensures m == n
  {
    ParseIntOfDecimal(m);
    ParseIntOfDecimal(n);
  }
}
