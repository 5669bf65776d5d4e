/**
 The string primitives the parsers rely on: decimal numbers with Rust's `parse`
 rules, and splitting on a separator. Each character stands for one byte.
 */
module Text {
  import opened Common

  /** `char::is_whitespace`: the Unicode White_Space property. */
  predicate IsWhitespace(c: char) {
    || '\t' <= c <= '\r' || c == ' ' || c == '\U{0085}' || c == '\U{00A0}' || c == '\U{1680}'
    || '\U{2000}' <= c <= '\U{200A}' || c == '\U{2028}' || c == '\U{2029}' || c == '\U{202F}'
    || c == '\U{205F}' || c == '\U{3000}'
  }

  predicate IsDigit(c: char) { '0' <= c <= '9' }

  predicate AllDigits(s: string) { forall i :: 0 <= i < |s| ==> IsDigit(s[i]) }

  function DigitValue(c: char): nat
    requires IsDigit(c)
  {
    c as int - '0' as int
  }

  function DigitChar(d: nat): char
    requires d < 10
  {
    ('0' as int + d) as char
  }

  function Value(s: string): nat
    requires AllDigits(s)
  {
    if s == "" then 0 else 10 * Value(s[..|s| - 1]) + DigitValue(s[|s| - 1])
  }

  function Decimal(n: nat): string {
    if n < 10 then [DigitChar(n)] else Decimal(n / 10) + [DigitChar(n % 10)]
  }

  function Zeros(n: nat): string { seq(n, _ => '0') }

  /** `{n:0width}` in a Rust format string, for a non-negative number. */
  function Padded(n: nat, width: nat): string {
    Zeros(SaturatingSub(width, |Decimal(n)|)) + Decimal(n)
  }

  lemma {:induction false} DecimalReadsBack(n: nat)
    ensures Decimal(n) != "" && AllDigits(Decimal(n)) && Value(Decimal(n)) == n
  {
    if n >= 10 {
      DecimalReadsBack(n / 10);
      assert Decimal(n)[..|Decimal(n)| - 1] == Decimal(n / 10);
    } else {
      assert Decimal(n)[..0] == "";
    }
  }

  lemma {:induction false} LeadingZeros(k: nat, s: string)
    requires AllDigits(s)
    ensures AllDigits(Zeros(k) + s) && Value(Zeros(k) + s) == Value(s)
    decreases |s|, k
  {
    var whole := Zeros(k) + s;
    if s != "" {
      LeadingZeros(k, s[..|s| - 1]);
      assert whole[..|whole| - 1] == Zeros(k) + s[..|s| - 1];
    } else if k > 0 {
      LeadingZeros(k - 1, "");
      assert whole[..|whole| - 1] == Zeros(k - 1) + "";
    } else {
      assert whole == "";
    }
  }

  /** A zero-padded number is all digits and reads back as the number. */
  lemma PaddedReadsBack(n: nat, width: nat)
    ensures Padded(n, width) != "" && AllDigits(Padded(n, width)) && Value(Padded(n, width)) == n
  {
    DecimalReadsBack(n);
    LeadingZeros(SaturatingSub(width, |Decimal(n)|), Decimal(n));
  }

  /** `str::parse` for an unsigned type: an optional plus sign, then digits in range. */
  function ParseUnsigned(s: string, largest: nat): Option<nat> {
    var digits := if s != "" && s[0] == '+' then s[1..] else s;
    if digits == "" || !AllDigits(digits) || Value(digits) > largest then None else Some(Value(digits))
  }

  /** `str::parse::<i64>`: an optional sign, then digits in range. */
  function ParseI64(s: string): Option<int> {
    if s != "" && s[0] == '-' then
      var digits := s[1..];
      if digits == "" || !AllDigits(digits) || Value(digits) > I64_MAX + 1 then None
      else Some(-(Value(digits) as int))
    else
      match ParseUnsigned(s, I64_MAX)
      case None => None
      case Some(n) => Some(n)
  }

  /** The first position of `c` in `s`, or the length of `s`. */
  function Find(s: string, c: char): (i: nat)
    ensures i <= |s|
    ensures c !in s[..i]
    ensures i < |s| ==> s[i] == c
  {
    if s == "" then 0 else if s[0] == c then 0 else
      var i := 1 + Find(s[1..], c);
      assert s[..i] == [s[0]] + s[1..][..i - 1];
      i
  }

  /** `s.split(c)`: the pieces between the separators; always at least one. */
  function Split(s: string, c: char): (pieces: seq<string>)
    ensures pieces != []
    decreases |s|
  {
    var i := Find(s, c);
    if i == |s| then [s] else [s[..i]] + Split(s[i + 1..], c)
  }

  lemma {:induction false} FindSeparator(a: string, c: char, b: string)
    requires c !in a
    ensures Find(a + [c] + b, c) == |a|
  {
    var s := a + [c] + b;
    if a != "" {
      FindSeparator(a[1..], c, b);
      assert s[1..] == a[1..] + [c] + b;
    }
  }

  lemma SplitSeparator(a: string, c: char, b: string)
    requires c !in a
    ensures Split(a + [c] + b, c) == [a] + Split(b, c)
  {
    FindSeparator(a, c, b);
    var s := a + [c] + b;
    assert s[..|a|] == a && s[|a| + 1..] == b;
  }

  lemma SplitWhole(a: string, c: char)
    requires c !in a
    ensures Split(a, c) == [a]
  {
    assert Find(a, c) == |a|;
  }

  function Join(pieces: seq<string>, c: char): string
    requires pieces != []
  {
    if |pieces| == 1 then pieces[0] else pieces[0] + [c] + Join(pieces[1..], c)
  }

  /** Splitting forgets nothing, and no piece holds the separator. */
  lemma {:induction false} SplitJoins(s: string, c: char)
    ensures Join(Split(s, c), c) == s
    ensures forall i :: 0 <= i < |Split(s, c)| ==> c !in Split(s, c)[i]
    decreases |s|
  {
    var i := Find(s, c);
    if i < |s| {
      SplitJoins(s[i + 1..], c);
      assert s == s[..i] + [c] + s[i + 1..];
      assert Split(s, c)[1..] == Split(s[i + 1..], c);
    }
  }

  /** Splitting a concatenation joins the last piece of one part to the first of the other. */
  lemma {:induction false} SplitConcat(a: string, b: string, c: char)
    ensures var x, y := Split(a, c), Split(b, c);
      Split(a + b, c) == x[..|x| - 1] + [x[|x| - 1] + y[0]] + y[1..]
    decreases |a|
  {
    hide Split;
    var i := Find(a, c);
    if i == |a| {
      SplitWhole(a, c);
      SplitAfter(a, b, c);
    } else {
      var rest := a[i + 1..];
      var x := Split(rest, c);
      assert a == a[..i] + [c] + rest;
      assert a + b == a[..i] + [c] + (rest + b);
      SplitSeparator(a[..i], c, rest);
      SplitSeparator(a[..i], c, rest + b);
      SplitConcat(rest, b, c);
      assert ([a[..i]] + x)[..|x|] == [a[..i]] + x[..|x| - 1];
    }
  }

  lemma SplitAfter(a: string, b: string, c: char)
    requires c !in a
    ensures Split(a + b, c) == [a + Split(b, c)[0]] + Split(b, c)[1..]
  {
    hide Split;
    var j := Find(b, c);
    if j == |b| {
      SplitWhole(b, c);
      SplitWhole(a + b, c);
    } else {
      assert b == b[..j] + [c] + b[j + 1..];
      assert a + b == (a + b[..j]) + [c] + b[j + 1..];
      SplitSeparator(b[..j], c, b[j + 1..]);
      SplitSeparator(a + b[..j], c, b[j + 1..]);
    }
  }
}
