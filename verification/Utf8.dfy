/**
 What Rust's `String::from_utf8_lossy` makes of command output: well-formed UTF-8 stays, each
 maximal ill-formed piece becomes U+FFFD.
 */
module Utf8 {
  type Byte = b: nat | b < 256

  type Bytes = seq<Byte>

  /** U+FFFD. */
  const REPLACEMENT: Bytes := [0xEF, 0xBF, 0xBD]

  predicate Continues(b: Byte) { 0x80 <= b < 0xC0 }

  /** The second bytes a three-byte sequence may have after its first. */
  predicate SecondOfThree(first: Byte, second: Byte) {
    || (first == 0xE0 && 0xA0 <= second < 0xC0)
    || ((0xE1 <= first <= 0xEC || 0xEE <= first <= 0xEF) && Continues(second))
    || (first == 0xED && 0x80 <= second < 0xA0)
  }

  predicate SecondOfFour(first: Byte, second: Byte) {
    || (first == 0xF0 && 0x90 <= second < 0xC0)
    || (0xF1 <= first <= 0xF3 && Continues(second))
    || (first == 0xF4 && 0x80 <= second < 0x90)
  }

  /** The length of the well-formed sequence at the start, or zero. */
  function ValidLength(b: Bytes): (n: nat)
    ensures n <= 4 && n <= |b|
  {
    if b == [] then 0
    else if b[0] < 0x80 then 1
    else if |b| >= 2 && 0xC2 <= b[0] < 0xE0 && Continues(b[1]) then 2
    else if |b| >= 3 && SecondOfThree(b[0], b[1]) && Continues(b[2]) then 3
    else if |b| >= 4 && SecondOfFour(b[0], b[1]) && Continues(b[2]) && Continues(b[3]) then 4
    else 0
  }

  /** How much of an ill-formed start one replacement stands for. */
  function SubpartLength(b: Bytes): (n: nat)
    requires b != []
    ensures 1 <= n <= |b|
  {
    if |b| >= 3 && SecondOfFour(b[0], b[1]) && Continues(b[2]) then 3
    else if |b| >= 2 && (SecondOfThree(b[0], b[1]) || SecondOfFour(b[0], b[1])) then 2
    else 1
  }

  function Lossy(b: Bytes): Bytes
    decreases |b|
  {
    if b == [] then []
    else if ValidLength(b) > 0 then b[..ValidLength(b)] + Lossy(b[ValidLength(b)..])
    else REPLACEMENT + Lossy(b[SubpartLength(b)..])
  }

  predicate Valid(b: Bytes)
    decreases |b|
  {
    b == [] || (ValidLength(b) > 0 && Valid(b[ValidLength(b)..]))
  }

  /** U+FFFD stands somewhere in well-formed text. */
  predicate HasReplacement(b: Bytes)
    decreases |b|
  {
    ValidLength(b) > 0 && (b[..ValidLength(b)] == REPLACEMENT || HasReplacement(b[ValidLength(b)..]))
  }

  /** Well-formed text without U+FFFD: nothing else decodes to it. */
  predicate Plain(b: Bytes) { Valid(b) && !HasReplacement(b) }

  lemma SequenceStands(v: Bytes, rest: Bytes)
    requires v != [] && ValidLength(v) == |v|
    ensures ValidLength(v + rest) == |v| && (v + rest)[..|v|] == v && (v + rest)[|v|..] == rest
  {
    var b := v + rest;
    assert forall i :: 0 <= i < |v| ==> b[i] == v[i];
  }

  lemma FirstSequence(b: Bytes)
    requires ValidLength(b) > 0
    ensures ValidLength(b[..ValidLength(b)]) == ValidLength(b)
    ensures b == b[..ValidLength(b)] + b[ValidLength(b)..]
  {
  }

  lemma ReplacementIsValid()
    ensures ValidLength(REPLACEMENT) == 3
  {
  }

  /** What decoding produces is well-formed. */
  lemma {:induction false} LossyIsValid(b: Bytes)
    ensures Valid(Lossy(b))
    decreases |b|
  {
    hide ValidLength, SubpartLength;
    if b != [] {
      if ValidLength(b) > 0 {
        FirstSequence(b);
        LossyIsValid(b[ValidLength(b)..]);
        SequenceStands(b[..ValidLength(b)], Lossy(b[ValidLength(b)..]));
      } else {
        LossyIsValid(b[SubpartLength(b)..]);
        ReplacementIsValid();
        SequenceStands(REPLACEMENT, Lossy(b[SubpartLength(b)..]));
      }
    }
  }

  lemma {:induction false} ValidStays(b: Bytes)
    requires Valid(b)
    ensures Lossy(b) == b
    decreases |b|
  {
    if b != [] {
      FirstSequence(b);
      ValidStays(b[ValidLength(b)..]);
    }
  }

  /** Decoding leaves exactly the well-formed text alone. */
  lemma FixedExactly(b: Bytes)
    ensures Lossy(b) == b <==> Valid(b)
    ensures Lossy(Lossy(b)) == Lossy(b)
  {
    LossyIsValid(b);
    ValidStays(Lossy(b));
    if Valid(b) {
      ValidStays(b);
    }
  }

  /** Text without U+FFFD is the decoding of itself alone. */
  lemma {:induction false} PlainIsUnique(b: Bytes)
    requires !HasReplacement(Lossy(b))
    ensures Lossy(b) == b
    decreases |b|
  {
    hide ValidLength, SubpartLength;
    if b != [] {
      if ValidLength(b) > 0 {
        FirstSequence(b);
        SequenceStands(b[..ValidLength(b)], Lossy(b[ValidLength(b)..]));
        PlainIsUnique(b[ValidLength(b)..]);
      } else {
        ReplacementIsValid();
        SequenceStands(REPLACEMENT, Lossy(b[SubpartLength(b)..]));
      }
    }
  }

  lemma {:induction false} OtherSpelling(b: Bytes) returns (other: Bytes)
    requires Valid(b) && HasReplacement(b)
    ensures other != b && Lossy(other) == b && !Valid(other)
    decreases |b|
  {
    var first, rest := b[..ValidLength(b)], b[ValidLength(b)..];
    FirstSequence(b);
    if first == REPLACEMENT {
      other := [0xFF] + rest;
      assert other[1..] == rest;
      ValidStays(rest);
    } else {
      var later := OtherSpelling(rest);
      other := first + later;
      SequenceStands(first, later);
    }
  }

  /** Whatever is not plain has another spelling that decodes alike. */
  lemma NotPlainExactly(b: Bytes)
    ensures Plain(b) <==> forall other :: Lossy(other) == Lossy(b) ==> other == b
  {
    FixedExactly(b);
    if Plain(b) {
      forall other | Lossy(other) == Lossy(b) ensures other == b {
        PlainIsUnique(other);
      }
    } else if Valid(b) {
      var other := OtherSpelling(b);
    }
  }

  lemma {:induction false} NoNulAppears(b: Bytes)
    requires 0 !in b
    ensures 0 !in Lossy(b) && (b != [] ==> Lossy(b) != [])
    decreases |b|
  {
    hide ValidLength, SubpartLength;
    if b != [] {
      if ValidLength(b) > 0 {
        NoNulAppears(b[ValidLength(b)..]);
      } else {
        NoNulAppears(b[SubpartLength(b)..]);
      }
    }
  }

  lemma NulEndsSequence(a: Bytes, rest: Bytes)
    requires a != []
    ensures var b := a + [0] + rest;
      && ValidLength(b) == ValidLength(a)
      && (ValidLength(a) == 0 ==> SubpartLength(b) == SubpartLength(a))
  {
    var b := a + [0] + rest;
    assert forall i :: 0 <= i < |a| ==> b[i] == a[i];
    assert b[|a|] == 0;
  }

  /** A NUL byte is never part of a longer sequence, so decoding works between NULs. */
  lemma {:induction false} LossyAcrossNul(a: Bytes, rest: Bytes)
    ensures Lossy(a + [0] + rest) == Lossy(a) + [0] + Lossy(rest)
    decreases |a|
  {
    hide ValidLength, SubpartLength;
    var b := a + [0] + rest;
    if a == [] {
      NulAlone(rest);
      assert b == [0] + rest;
    } else {
      NulEndsSequence(a, rest);
      var n := if ValidLength(a) > 0 then ValidLength(a) else SubpartLength(a);
      LossyAcrossNul(a[n..], rest);
      assert b[n..] == a[n..] + [0] + rest;
      assert b[..n] == a[..n];
    }
  }

  lemma NulAlone(rest: Bytes)
    ensures Lossy([0] + rest) == [0] + Lossy(rest)
  {
    assert ([0] + rest)[1..] == rest && ([0] + rest)[..1] == [0];
  }

  // ---------------------------------------------------------------- by code points

  /** A Unicode scalar value: a code point that is no surrogate. */
  predicate Scalar(c: nat) { c <= 0x10FFFF && !(0xD800 <= c < 0xE000) }

  function Continuation(n: nat): Byte { 0x80 + n % 64 }

  /** Its UTF-8 encoding (section 3 of RFC 3629). */
  function Encoded(c: nat): Bytes
    requires Scalar(c)
  {
    if c < 0x80 then [c]
    else if c < 0x800 then [0xC0 + c / 64, Continuation(c)]
    else if c < 0x1_0000 then [0xE0 + c / 4_096, Continuation(c / 64), Continuation(c)]
    else [0xF0 + c / 262_144, Continuation(c / 4_096), Continuation(c / 64), Continuation(c)]
  }

  /** One well-formed sequence and nothing else. */
  predicate OneSequence(b: Bytes) { b != [] && ValidLength(b) == |b| }

  lemma EncodedIsOneSequence(c: nat)
    requires Scalar(c)
    ensures OneSequence(Encoded(c))
  {
    assert c / 4_096 == c / 64 / 64 && c / 262_144 == c / 4_096 / 64;
  }

  lemma Parts(f: nat, x: nat, y: nat)
    requires x < 64 && y < 64
    ensures var c := f * 4_096 + x * 64 + y;
      c / 64 == f * 64 + x && c / 4_096 == f && c / 64 % 64 == x && c % 64 == y
  {
  }

  lemma Decoded(b: Bytes) returns (c: nat)
    requires OneSequence(b)
    ensures Scalar(c) && Encoded(c) == b
  {
    if |b| == 1 {
      c := b[0];
    } else if |b| == 2 {
      c := DecodedTwo(b[0], b[1]);
      assert b == [b[0], b[1]];
    } else if |b| == 3 {
      c := DecodedThree(b[0], b[1], b[2]);
      assert b == [b[0], b[1], b[2]];
    } else {
      c := DecodedFour(b[0], b[1], b[2], b[3]);
      assert b == [b[0], b[1], b[2], b[3]];
    }
  }

  lemma DecodedTwo(first: Byte, second: Byte) returns (c: nat)
    requires 0xC2 <= first < 0xE0 && Continues(second)
    ensures Scalar(c) && Encoded(c) == [first, second]
  {
    var f: nat, x: nat := first - 0xC0, second - 0x80;
    c := f * 64 + x;
  }

  lemma DecodedThree(first: Byte, second: Byte, third: Byte) returns (c: nat)
    requires SecondOfThree(first, second) && Continues(third)
    ensures Scalar(c) && Encoded(c) == [first, second, third]
  {
    var f: nat, x: nat, y: nat := first - 0xE0, second - 0x80, third - 0x80;
    c := f * 4_096 + x * 64 + y;
    Parts(f, x, y);
  }

  lemma DecodedFour(first: Byte, second: Byte, third: Byte, fourth: Byte) returns (c: nat)
    requires SecondOfFour(first, second) && Continues(third) && Continues(fourth)
    ensures Scalar(c) && Encoded(c) == [first, second, third, fourth]
  {
    var f: nat, x: nat, y: nat, z: nat := first - 0xF0, second - 0x80, third - 0x80, fourth - 0x80;
    var upper := f * 64 + x;
    c := upper * 4_096 + y * 64 + z;
    Parts(upper, y, z);
    assert c / 262_144 == upper / 64 == f;
  }

  /** The byte ranges are right: the well-formed sequences are exactly the encodings of scalar values. */
  lemma SequencesAreScalars(b: Bytes)
    ensures OneSequence(b) <==> exists c: nat :: Scalar(c) && Encoded(c) == b
  {
    if OneSequence(b) {
      var c := Decoded(b);
    }
    forall c: nat | Scalar(c) && Encoded(c) == b ensures OneSequence(b) {
      EncodedIsOneSequence(c);
    }
  }

  /** With something after it, or nothing, the piece is one sequence. */
  predicate Becomes(piece: Bytes, tail: Bytes) { OneSequence(piece + tail) }

  ghost predicate CanBecome(piece: Bytes) { exists tail: Bytes :: Becomes(piece, tail) }

  /**
   Each replacement stands for a maximal ill-formed piece: as much as could still have become
   one sequence, and no more; or a single byte that could not.
   */
  lemma SubpartIsMaximal(b: Bytes)
    requires b != [] && ValidLength(b) == 0
    ensures var n := SubpartLength(b);
      && (n > 1 ==> CanBecome(b[..n]))
      && (n < |b| ==> !CanBecome(b[..n + 1]))
  {
    var n := SubpartLength(b);
    if n == 3 {
      assert Becomes(b[..3], [0x80]);
    } else if n == 2 {
      if SecondOfThree(b[0], b[1]) {
        assert Becomes(b[..2], [0x80]);
      } else {
        assert Becomes(b[..2], [0x80, 0x80]);
      }
    }
    if n < |b| {
      var longer := b[..n + 1];
      forall tail: Bytes ensures !Becomes(longer, tail) {
        var s := longer + tail;
        assert forall i :: 0 <= i <= n ==> s[i] == b[i];
      }
    }
  }
}
