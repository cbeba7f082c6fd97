/**
  The hash code of a Java string, as the generated builders use it to dispatch
  on a property name. `String.hashCode` folds `h := 31 * h + u` over the UTF-16
  code units `u` of the string in 32-bit two's-complement arithmetic. A Dafny
  `char` is a Unicode scalar value, so a character above U+FFFF contributes the
  two code units of its surrogate pair. A Dafny string cannot hold an unpaired
  surrogate, which a Java `String` can, so strings here are well-formed UTF-16.
  The model keeps the fold modulo 2^32 and converts to a signed `int` at the end.
 */
module JavaString {

  const Modulus: int := 0x1_0000_0000
  const HalfModulus: int := 0x8000_0000

  /** The UTF-16 code units of one character: the character itself, or its surrogate pair. */
  function CodeUnitsOf(c: char): (u: seq<int>)
    ensures |u| == 1 || |u| == 2
    ensures |u| == 1 <==> c as int < 0x10000
    ensures |u| == 1 ==> u[0] == c as int
    ensures |u| == 2 ==>
      && 0xD800 <= u[0] < 0xDC00 && 0xDC00 <= u[1] < 0xE000
      && (u[0] - 0xD800) * 0x400 + (u[1] - 0xDC00) + 0x10000 == c as int
  {
    var v := c as int;
    if v < 0x10000 then [v]
    else [0xD800 + (v - 0x10000) / 0x400, 0xDC00 + (v - 0x10000) % 0x400]
  }

  /** The UTF-16 encoding of a string, the sequence of `char`s a Java `String` holds. */
  function CodeUnits(s: string): (u: seq<int>)
    ensures |u| >= |s|
  {
    if |s| == 0 then [] else CodeUnits(s[..|s| - 1]) + CodeUnitsOf(s[|s| - 1])
  }

  /** Encoding is a homomorphism: the code units of a concatenation are the concatenated code units. */
  lemma {:induction false} CodeUnitsAppend(s: string, t: string)
    ensures CodeUnits(s + t) == CodeUnits(s) + CodeUnits(t)
    decreases |t|
  {
    if |t| == 0 {
      assert s + t == s;
    } else {
      var init, c := t[..|t| - 1], t[|t| - 1];
      assert (s + t)[..|s + t| - 1] == s + init;
      assert (s + t)[|s + t| - 1] == c;
      CodeUnitsAppend(s, init);
    }
  }

  /** One step of the fold on one code unit, wrapping modulo 2^32. */
  function Absorb(h: int, unit: int): int {
    (31 * h + unit) % Modulus
  }

  /** The fold over a sequence of code units, exactly as `String.hashCode` runs it. */
  function FoldHash(units: seq<int>): (h: int)
    ensures 0 <= h < Modulus
  {
    if |units| == 0 then 0 else Absorb(FoldHash(units[..|units| - 1]), units[|units| - 1])
  }

  /** The fold advanced over the code units of one character. */
  function Step(h: int, c: char): int {
    var u := CodeUnitsOf(c);
    if |u| == 1 then Absorb(h, u[0]) else Absorb(Absorb(h, u[0]), u[1])
  }

  /** The hash code as an unsigned 32-bit value, computed one character at a time. */
  function UnsignedHash(s: string): (h: int)
    ensures 0 <= h < Modulus
  {
    if |s| == 0 then 0 else Step(UnsignedHash(s[..|s| - 1]), s[|s| - 1])
  }

  /** Folding on over the code units of one more character is one `Step`. */
  lemma FoldHashExtend(x: seq<int>, c: char)
    ensures FoldHash(x + CodeUnitsOf(c)) == Step(FoldHash(x), c)
  {
    var u := CodeUnitsOf(c);
    if |u| == 1 {
      assert (x + u)[..|x|] == x;
    } else {
      assert (x + u)[..|x| + 1] == x + [u[0]];
      assert (x + [u[0]])[..|x|] == x;
    }
  }

  /**
    The character-wise hash is the fold over the string's UTF-16 encoding: a
    character above U+FFFF counts as its two surrogates.
   */
  lemma {:induction false} UnsignedHashIsUtf16Fold(s: string)
    ensures UnsignedHash(s) == FoldHash(CodeUnits(s))
    decreases |s|
  {
    if |s| > 0 {
      var init, c := s[..|s| - 1], s[|s| - 1];
      assert UnsignedHash(s) == Step(UnsignedHash(init), c);
      assert CodeUnits(s) == CodeUnits(init) + CodeUnitsOf(c);
      UnsignedHashIsUtf16Fold(init);
      FoldHashExtend(CodeUnits(init), c);
    }
  }

  /** `String.hashCode`, a signed 32-bit `int`. */
  function HashCode(s: string): (h: int)
    ensures -HalfModulus <= h < HalfModulus
    ensures h % Modulus == UnsignedHash(s)
  {
    var u := UnsignedHash(s);
    if u < HalfModulus then u else u - Modulus
  }

  /** Two strings have the same signed hash exactly when their unsigned hashes agree. */
  lemma HashCodeAgreesWithUnsigned(s: string, t: string)
    ensures HashCode(s) == HashCode(t) <==> UnsignedHash(s) == UnsignedHash(t)
  {
  }

  lemma UnsignedHashAppend(s: string, c: char)
    ensures UnsignedHash(s + [c]) == Step(UnsignedHash(s), c)
  {
    assert (s + [c])[..|s|] == s;
  }

  /** Reducing the running hash modulo 2^32 before the next step does not change the result. */
  lemma StepIgnoresWrap(x: int, y: int)
    ensures (31 * (x % Modulus) + y) % Modulus == (31 * x + y) % Modulus
  {
    var q := x / Modulus;
    assert x == q * Modulus + x % Modulus;
    assert 31 * x + y == (31 * (x % Modulus) + y) + (31 * q) * Modulus;
  }

  /** Equal hashes stay equal when the same suffix is appended to both strings. */
  lemma {:induction false} HashExtend(x: string, y: string, suffix: string)
    requires UnsignedHash(x) == UnsignedHash(y)
    ensures UnsignedHash(x + suffix) == UnsignedHash(y + suffix)
    decreases |suffix|
  {
    if |suffix| == 0 {
      assert x + suffix == x && y + suffix == y;
    } else {
      var init := suffix[..|suffix| - 1];
      var c := suffix[|suffix| - 1];
      assert x + suffix == (x + init) + [c];
      assert y + suffix == (y + init) + [c];
      calc {
        UnsignedHash(x + suffix);
        { UnsignedHashAppend(x + init, c); }
        Step(UnsignedHash(x + init), c);
        { HashExtend(x, y, init); }
        Step(UnsignedHash(y + init), c);
        { UnsignedHashAppend(y + init, c); }
        UnsignedHash(y + suffix);
      }
    }
  }

  /**
    The classic collision: raising one code unit by 1 and lowering the next by 31
    leaves the hash unchanged, wherever the pair sits in the string. The four
    characters of the pair lie below U+10000, so each is one code unit.
   */
  lemma {:induction false} AdjacentPairCollision(prefix: string, a: char, b: char, a': char, b': char, suffix: string)
    requires a' as int == a as int + 1 && b' as int == b as int - 31
    requires a' as int < 0x10000 && b as int < 0x10000
    ensures HashCode(prefix + [a, b] + suffix) == HashCode(prefix + [a', b'] + suffix)
  {
    var h := UnsignedHash(prefix);
    UnsignedHashAppend(prefix, a);
    UnsignedHashAppend(prefix + [a], b);
    assert prefix + [a] + [b] == prefix + [a, b];
    StepIgnoresWrap(31 * h + a as int, b as int);
    UnsignedHashAppend(prefix, a');
    UnsignedHashAppend(prefix + [a'], b');
    assert prefix + [a'] + [b'] == prefix + [a', b'];
    StepIgnoresWrap(31 * h + a' as int, b' as int);
    assert 31 * (31 * h + a' as int) + b' as int == 31 * (31 * h + a as int) + b as int;
    HashExtend(prefix + [a, b], prefix + [a', b'], suffix);
    HashCodeAgreesWithUnsigned(prefix + [a, b] + suffix, prefix + [a', b'] + suffix);
  }
}
