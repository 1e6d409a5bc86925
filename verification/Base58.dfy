/**
 * The wallet's Base58 encoder: a big number kept as digits in base 58 and multiplied by 256 in place.
 * The result is specified through the number the bytes stand for, and a reference decoder reads it back.
 */
module Base58 {
  import opened Collections

  type byte = x: int | 0 <= x < 256

  /** The code of each letter: digits, then capitals without I and O, then small letters without l. */
  function Code(i: nat): (c: int)
    requires i < 58
    ensures 49 <= c <= 122
  {
    if i < 9 then 49 + i else if i < 17 then 56 + i else if i < 22 then 57 + i
    else if i < 33 then 58 + i else if i < 44 then 64 + i else 65 + i
  }

  function Letter(i: nat): char
    requires i < 58
  {
    Code(i) as char
  }

  /** The alphabet, spelled out. */
  lemma AlphabetIs()
    ensures [Letter(0), Letter(1), Letter(2), Letter(3),
             Letter(4), Letter(5), Letter(6), Letter(7), Letter(8)] == "123456789"
    ensures [Letter(9), Letter(10), Letter(11), Letter(12),
             Letter(13), Letter(14), Letter(15), Letter(16)] == "ABCDEFGH"
    ensures [Letter(17), Letter(18), Letter(19), Letter(20), Letter(21)] == "JKLMN"
    ensures [Letter(22), Letter(23), Letter(24), Letter(25), Letter(26),
             Letter(27), Letter(28), Letter(29), Letter(30), Letter(31), Letter(32)] == "PQRSTUVWXYZ"
    ensures [Letter(33), Letter(34), Letter(35), Letter(36), Letter(37),
             Letter(38), Letter(39), Letter(40), Letter(41), Letter(42), Letter(43)] == "abcdefghijk"
    ensures [Letter(44), Letter(45), Letter(46), Letter(47), Letter(48),
             Letter(49), Letter(50), Letter(51), Letter(52), Letter(53),
             Letter(54), Letter(55), Letter(56), Letter(57)] == "mnopqrstuvwxyz"
  {
  }

  /** The two bases, so that every product is by a constant. */
  datatype Base = B58 | B256

  function Size(b: Base): int { if b == B58 then 58 else 256 }

  function TimesBase(x: int, b: Base): int { if b == B58 then x * 58 else x * 256 }

  function Quotient(v: nat, b: Base): nat { if b == B58 then v / 58 else v / 256 }

  function Remainder(v: nat, b: Base): nat { if b == B58 then v % 58 else v % 256 }

  predicate InBase(ds: seq<int>, b: Base) { forall i :: 0 <= i < |ds| ==> 0 <= ds[i] < Size(b) }

  /** The number written by these digits, most significant first. */
  function Value(ds: seq<int>, b: Base): int
  {
    if ds == [] then 0 else TimesBase(Value(ds[..|ds| - 1], b), b) + ds[|ds| - 1]
  }

  /** The digits of a number without leading zeros, most significant first. */
  function Digits(v: nat, b: Base): (ds: seq<int>)
    ensures InBase(ds, b)
    ensures v > 0 ==> |ds| > 0 && ds[0] != 0
  {
    if v == 0 then [] else Digits(Quotient(v, b), b) + [Remainder(v, b)]
  }

  lemma {:induction false} ValueNonNegative(ds: seq<int>, b: Base)
    requires InBase(ds, b)
    ensures Value(ds, b) >= 0
  {
    if ds != [] {
      ValueNonNegative(ds[..|ds| - 1], b);
    }
  }

  /** Writing a number and reading it back. */
  lemma {:induction false} ValueOfDigits(v: nat, b: Base)
    ensures Value(Digits(v, b), b) == v
  {
    if v > 0 {
      ValueOfDigits(Quotient(v, b), b);
      assert Digits(v, b)[..|Digits(v, b)| - 1] == Digits(Quotient(v, b), b);
    }
  }

  /** Digits without a leading zero are the digits of their number. */
  lemma {:induction false} DigitsOfValue(ds: seq<int>, b: Base)
    requires InBase(ds, b) && (ds != [] ==> ds[0] != 0)
    ensures Value(ds, b) >= 0 && Digits(Value(ds, b), b) == ds
    ensures ds != [] ==> Value(ds, b) > 0
  {
    if ds != [] {
      var rest, d := ds[..|ds| - 1], ds[|ds| - 1];
      DigitsOfValue(rest, b);
      assert Quotient(Value(ds, b), b) == Value(rest, b) && Remainder(Value(ds, b), b) == d;
      assert ds == rest + [d];
    }
  }

  /** Leading zeros change no number. */
  lemma {:induction false} LeadingZeros(ds: seq<int>, n: nat, b: Base)
    requires n <= |ds| && forall i :: 0 <= i < n ==> ds[i] == 0
    ensures Value(ds, b) == Value(ds[n..], b)
    decreases |ds|
  {
    if n < |ds| {
      LeadingZeros(ds[..|ds| - 1], n, b);
      assert ds[..|ds| - 1][n..] == ds[n..][..|ds[n..]| - 1];
    } else if n > 0 {
      LeadingZeros(ds[..n - 1], n - 1, b);
      assert ds[n..] == [] && ds[..n - 1][n - 1..] == [];
    }
  }

  // ---------------------------------------------------------------- what the encoder returns

  function CountZeros(bytes: seq<int>): (n: nat)
    ensures n <= |bytes| && (forall i :: 0 <= i < n ==> bytes[i] == 0) && (n < |bytes| ==> bytes[n] != 0)
  {
    if bytes == [] || bytes[0] != 0 then 0 else 1 + CountZeros(bytes[1..])
  }

  function Letters(ds: seq<int>): (s: string)
    requires InBase(ds, B58)
  {
    seq(|ds|, i requires 0 <= i < |ds| => Letter(ds[i]))
  }

  function Repeat<T>(x: T, n: nat): seq<T> { seq(n, _ => x) }

  /** The digits the encoder ends with: those of the number, or a single zero. */
  function EncoderDigits(v: nat): (ds: seq<int>)
    ensures InBase(ds, B58)
  {
    if v == 0 then [0] else Digits(v, B58)
  }

  function Encoded(bytes: seq<byte>): string
  {
    if bytes == [] then "" else
      ValueNonNegative(bytes, B256);
      Repeat('1', CountZeros(bytes)) + Letters(EncoderDigits(Value(bytes, B256)))
  }

  // ---------------------------------------------------------------- the encoder

  function Pow58(n: nat): nat { if n == 0 then 1 else 58 * Pow58(n - 1) }

  /** The number written by these digits, least significant first. */
  function Little(ds: seq<int>): int
  {
    if ds == [] then 0 else Little(ds[..|ds| - 1]) + ds[|ds| - 1] * Pow58(|ds| - 1)
  }

  /** The digits the loops keep: in base, at least one, and no zero on top of others. */
  predicate Canonical(ds: seq<int>)
  {
    InBase(ds, B58) && |ds| >= 1 && (|ds| > 1 ==> ds[|ds| - 1] != 0)
  }

  function Reverse(ds: seq<int>): (r: seq<int>)
    ensures |r| == |ds|
  {
    seq(|ds|, i requires 0 <= i < |ds| => ds[|ds| - 1 - i])
  }

  lemma {:induction false} LittleFront(ds: seq<int>)
    requires |ds| > 0
    ensures Little(ds) == ds[0] + 58 * Little(ds[1..])
  {
    var n := |ds| - 1;
    if n > 0 {
      LittleFront(ds[..n]);
      assert ds[..n][1..] == ds[1..][..n - 1];
      assert Pow58(n) == 58 * Pow58(n - 1);
    } else {
      assert ds[..0] == [] && ds[1..] == [];
    }
  }

  lemma {:induction false} LittleIsReversed(ds: seq<int>)
    ensures Little(ds) == Value(Reverse(ds), B58)
  {
    if ds != [] {
      LittleFront(ds);
      LittleIsReversed(ds[1..]);
      assert Reverse(ds)[..|ds| - 1] == Reverse(ds[1..]);
    }
  }

  lemma CanonicalDigits(ds: seq<int>, v: nat)
    requires Canonical(ds) && Little(ds) == v
    ensures Reverse(ds) == EncoderDigits(v)
  {
    LittleIsReversed(ds);
    var r := Reverse(ds);
    if r[0] != 0 {
      DigitsOfValue(r, B58);
    } else {
      assert r == [0] && r[..0] == [];
    }
  }

  /** Every digit times 256 and the carry of the digit before; the carry stays below 256. */
  method MultiplyDigits(digits0: seq<int>, b: byte) returns (digits: seq<int>, carry: int)
    requires Canonical(digits0)
    ensures InBase(digits, B58) && |digits| == |digits0| && 0 <= carry < 256
    ensures Little(digits) + carry * Pow58(|digits|) == 256 * Little(digits0) + b
    ensures carry == 0 ==> Canonical(digits)
  {
    digits, carry := digits0, b;
    var j := 0;
    while j < |digits|
      invariant 0 <= j <= |digits| == |digits0|
      invariant 0 <= carry < 256
      invariant InBase(digits, B58) && digits[j..] == digits0[j..]
      invariant Little(digits[..j]) + carry * Pow58(j) == 256 * Little(digits0[..j]) + b
      invariant j == |digits| > 1 ==> carry > 0
    {
      ghost var before := digits;
      var next := carry + digits[j] * 256;
      assert next <= 14847;
      digits := digits[j := next % 58];
      CarryStep(before, digits, digits0, j, carry, b);
      carry := next / 58;
      j := j + 1;
    }
    assert digits[..j] == digits && digits0[..j] == digits0;
  }

  /** The digits of what is carried past the top. */
  method PushCarry(digits0: seq<int>, carry0: int) returns (digits: seq<int>)
    requires InBase(digits0, B58) && |digits0| >= 1 && 0 <= carry0 < 256 && (carry0 == 0 ==> Canonical(digits0))
    ensures Canonical(digits) && Little(digits) == Little(digits0) + carry0 * Pow58(|digits0|)
  {
    digits := digits0;
    var carry := carry0;
    while carry > 0
      invariant 0 <= carry < 256 && InBase(digits, B58) && |digits| >= 1
      invariant Little(digits) + carry * Pow58(|digits|) == Little(digits0) + carry0 * Pow58(|digits0|)
      invariant carry == 0 ==> Canonical(digits)
    {
      PushStep(digits, carry);
      digits := digits + [carry % 58];
      carry := carry / 58;
    }
  }

  /** One multiplication of the digits by 256 with `b` added. */
  method TimesAndAdd(digits0: seq<int>, b: byte) returns (digits: seq<int>)
    requires Canonical(digits0)
    ensures Canonical(digits) && Little(digits) == 256 * Little(digits0) + b
  {
    var multiplied, carry := MultiplyDigits(digits0, b);
    digits := PushCarry(multiplied, carry);
  }

  lemma CarryStep(before: seq<int>, after: seq<int>, old0: seq<int>, j: nat, carry: nat, b: int)
    requires j < |before| == |old0| && before[j..] == old0[j..] && before[j] >= 0
    requires after == before[j := (carry + before[j] * 256) % 58]
    requires Little(before[..j]) + carry * Pow58(j) == 256 * Little(old0[..j]) + b
    ensures Little(after[..j + 1]) + ((carry + before[j] * 256) / 58) * Pow58(j + 1) == 256 * Little(old0[..j + 1]) + b
  {
    var p, d := Pow58(j), before[j];
    var next := carry + d * 256;
    var q, r := next / 58, next % 58;
    assert old0[j] == old0[j..][0] == d;
    LittleNext(before, after, j);
    LittleNext(old0, old0, j);
    SplitNext(p, carry, d, q, r);
  }

  /** One more digit, at the top. */
  lemma LittleNext(before: seq<int>, after: seq<int>, j: nat)
    requires j < |before| == |after| && before[..j] == after[..j]
    ensures Little(after[..j + 1]) == Little(before[..j]) + after[j] * Pow58(j)
  {
    assert after[..j + 1][..j] == before[..j];
  }

  lemma SplitNext(p: int, carry: int, d: int, q: int, r: int)
    requires r + 58 * q == carry + d * 256
    ensures r * p + q * (58 * p) == carry * p + 256 * (d * p)
  {
    calc {
      r * p + q * (58 * p);
      (r + 58 * q) * p;
      (carry + d * 256) * p;
      carry * p + 256 * (d * p);
    }
  }

  lemma PushStep(before: seq<int>, carry: nat)
    ensures var after := before + [carry % 58];
            Little(after) + (carry / 58) * Pow58(|after|) == Little(before) + carry * Pow58(|before|)
  {
    var p := Pow58(|before|);
    assert (before + [carry % 58])[..|before|] == before;
    calc {
      carry % 58 * p + carry / 58 * (58 * p);
      (carry % 58 + carry / 58 * 58) * p;
      carry * p;
    }
  }

  /** The digits after all bytes, then the leading zero bytes, then the text. */
  method Base58Encode(bytes: seq<byte>) returns (s: string)
    ensures s == Encoded(bytes)
  {
    if |bytes| == 0 {
      return "";
    }
    var digits := [0];
    for i := 0 to |bytes|
      invariant Canonical(digits) && Little(digits) == Value(bytes[..i], B256)
    {
      digits := TimesAndAdd(digits, bytes[i]);
      assert bytes[..i + 1][..i] == bytes[..i];
    }
    assert bytes[..|bytes|] == bytes;
    var zeros := 0;
    while zeros < |bytes| && bytes[zeros] == 0
      invariant 0 <= zeros <= |bytes|
      invariant forall i :: 0 <= i < zeros ==> bytes[i] == 0
    {
      zeros := zeros + 1;
    }
    assert zeros == CountZeros(bytes);
    ValueNonNegative(bytes, B256);
    CanonicalDigits(digits, Value(bytes, B256));
    s := Spell(zeros, digits);
  }

  method Spell(zeros: nat, digits: seq<int>) returns (s: string)
    requires InBase(digits, B58)
    ensures s == Repeat('1', zeros) + Letters(Reverse(digits))
  {
    s := "";
    for i := 0 to zeros
      invariant s == Repeat('1', i)
    {
      s := s + "1";
    }
    var i := |digits| - 1;
    ghost var letters := Letters(Reverse(digits));
    while i >= 0
      invariant -1 <= i < |digits|
      invariant s == Repeat('1', zeros) + letters[..|digits| - 1 - i]
    {
      s := s + [Letter(digits[i])];
      i := i - 1;
    }
    assert letters[..|digits|] == letters;
  }

  // ---------------------------------------------------------------- decoding

  /** Where a character stands in the alphabet. */
  function IndexOf(c: char, from: nat := 0): (i: Option<nat>)
    ensures i.Some? ==> i.value < 58 && Letter(i.value) == c
    ensures i.None? ==> forall k :: from <= k < 58 ==> Letter(k) != c
    decreases 58 - from
  {
    if from >= 58 then None
    else if Letter(from) == c then Some(from)
    else IndexOf(c, from + 1)
  }

  function Read(s: string): (ds: Option<seq<int>>)
    ensures ds.Some? ==> InBase(ds.value, B58) && |ds.value| == |s|
  {
    if s == "" then Some([]) else
      var rest, d := Read(s[..|s| - 1]), IndexOf(s[|s| - 1]);
      if rest.Some? && d.Some? then Some(rest.value + [d.value]) else None
  }

  function CountOnes(s: string): (n: nat)
    ensures n <= |s| && (forall i :: 0 <= i < n ==> s[i] == '1') && (n < |s| ==> s[n] != '1')
  {
    if s == "" || s[0] != '1' then 0 else 1 + CountOnes(s[1..])
  }

  /** The reference decoder: a zero byte for each leading '1', then the bytes of the number that follows. */
  function Decode(s: string): Option<seq<int>>
  {
    match Read(s)
    case None => None
    case Some(ds) =>
      ValueNonNegative(ds, B58);
      Some(Repeat(0, CountOnes(s)) + Digits(Value(ds, B58), B256))
  }

  lemma IndexOfLetter(d: nat)
    requires d < 58
    ensures IndexOf(Letter(d)) == Some(d)
  {
    var i := IndexOf(Letter(d)).value;
    assert Code(i) == Letter(i) as int == Letter(d) as int == Code(d);
  }

  lemma {:induction false} ReadLetters(ds: seq<int>)
    requires InBase(ds, B58)
    ensures Read(Letters(ds)) == Some(ds)
  {
    if ds != [] {
      var n := |ds| - 1;
      var s := Letters(ds);
      ReadLetters(ds[..n]);
      IndexOfLetter(ds[n]);
      assert s[..n] == Letters(ds[..n]) && s[n] == Letter(ds[n]);
      assert s != "" && ds[..n] + [ds[n]] == ds;
    }
  }

  lemma {:induction false} CountOnesIs(s: string, n: nat)
    requires n <= |s| && (forall i :: 0 <= i < n ==> s[i] == '1') && (n < |s| ==> s[n] != '1')
    ensures CountOnes(s) == n
  {
    if n > 0 {
      CountOnesIs(s[1..], n - 1);
    }
  }

  predicate SomeNonzero(bytes: seq<int>) { exists i :: 0 <= i < |bytes| && bytes[i] != 0 }

  /** The digits behind the text: one zero digit for each leading zero byte, then the number. */
  lemma ReadEncoded(bytes: seq<byte>)
    requires bytes != []
    ensures Value(bytes, B256) >= 0
    ensures var z := CountZeros(bytes);
            Read(Encoded(bytes)) == Some(Repeat(0, z) + EncoderDigits(Value(bytes, B256)))
  {
    ValueNonNegative(bytes, B256);
    var z, ds := CountZeros(bytes), EncoderDigits(Value(bytes, B256));
    assert Repeat('1', z) + Letters(ds) == Letters(Repeat(0, z) + ds);
    ReadLetters(Repeat(0, z) + ds);
  }

  lemma DecodeText(s: string, z: nat, ds: seq<int>, v: nat)
    requires Read(s) == Some(Repeat(0, z) + ds) && CountOnes(s) == z && Value(ds, B58) == v
    ensures Decode(s) == Some(Repeat(0, z) + Digits(v, B256))
  {
    LeadingZeros(Repeat(0, z) + ds, z, B58);
    assert (Repeat(0, z) + ds)[z..] == ds;
  }

  lemma OnesAreZeroBytes(bytes: seq<byte>)
    requires bytes != [] && Value(bytes, B256) > 0
    ensures CountOnes(Encoded(bytes)) == CountZeros(bytes)
  {
    var ds := EncoderDigits(Value(bytes, B256));
    CountOnesIs(Encoded(bytes), CountZeros(bytes));
  }

  lemma StripZeros(bytes: seq<int>, z: nat)
    requires z <= |bytes| && forall i :: 0 <= i < z ==> bytes[i] == 0
    ensures Repeat(0, z) + bytes[z..] == bytes
  {
    var all := Repeat(0, z) + bytes[z..];
    forall i | 0 <= i < |bytes| ensures all[i] == bytes[i] {
    }
  }

  /** The bytes are their leading zeros and the digits of their number. */
  lemma ZerosAndDigits(bytes: seq<byte>)
    requires SomeNonzero(bytes)
    ensures Value(bytes, B256) > 0
    ensures Digits(Value(bytes, B256), B256) == bytes[CountZeros(bytes)..]
  {
    var z := CountZeros(bytes);
    assert z < |bytes|;
    LeadingZeros(bytes, z, B256);
    DigitsOfValue(bytes[z..], B256);
  }

  lemma RoundTripNonzero(bytes: seq<byte>)
    requires SomeNonzero(bytes)
    ensures Decode(Encoded(bytes)) == Some(bytes)
  {
    StripZeros(bytes, CountZeros(bytes));
    ZerosAndDigits(bytes);
    ReadEncoded(bytes);
    OnesAreZeroBytes(bytes);
    var v := Value(bytes, B256);
    ValueOfDigits(v, B58);
    DecodeText(Encoded(bytes), CountZeros(bytes), EncoderDigits(v), v);
  }

  lemma RoundTripZeros(bytes: seq<byte>)
    requires bytes != [] && !SomeNonzero(bytes)
    ensures Decode(Encoded(bytes)) == Some(Repeat(0, |bytes| + 1))
  {
    var n := |bytes|;
    assert CountZeros(bytes) == n;
    LeadingZeros(bytes, n, B256);
    ReadEncoded(bytes);
    var s := Encoded(bytes);
    CountOnesIs(s, n + 1);
    var ds := Repeat(0, n) + [0];
    LeadingZeros(ds, n + 1, B58);
    assert Repeat(0, n + 1) + [] == Repeat(0, n + 1);
  }

  /** Decoding returns the bytes exactly when they are empty or not all zero; all zeros gain one byte. */
  lemma RoundTrip(bytes: seq<byte>)
    ensures Decode(Encoded(bytes)) == Some(bytes) <==> bytes == [] || SomeNonzero(bytes)
  {
    if bytes == [] {
      assert Repeat(0, 0) + Digits(0, B256) == [];
    } else if SomeNonzero(bytes) {
      RoundTripNonzero(bytes);
    } else {
      RoundTripZeros(bytes);
      assert |Repeat(0, |bytes| + 1)| != |bytes|;
    }
  }

  /** What decoding the encoding returns: one more byte if there are bytes and all are zero. */
  lemma DecodeEncoded(bytes: seq<byte>)
    ensures Decode(Encoded(bytes)) == Some(if bytes == [] || SomeNonzero(bytes) then bytes else bytes + [0])
  {
    RoundTrip(bytes);
    if bytes != [] && !SomeNonzero(bytes) {
      RoundTripZeros(bytes);
      assert bytes + [0] == Repeat(0, |bytes| + 1);
    }
  }

  /** No byte string that decodes to itself is an all-zero one with a zero added, the empty one's aside. */
  lemma LoneZeroApart(a: seq<byte>, b: seq<byte>)
    requires (a == [] || SomeNonzero(a)) && b != [] && !SomeNonzero(b)
    ensures a != b + [0]
  {
    assert forall i :: 0 <= i < |b + [0]| ==> (b + [0])[i] == 0;
  }

  /** No two byte strings share a text. */
  lemma EncodingIsInjective(a: seq<byte>, b: seq<byte>)
    ensures Encoded(a) == Encoded(b) <==> a == b
  {
    if Encoded(a) == Encoded(b) {
      DecodeEncoded(a);
      DecodeEncoded(b);
      if b != [] && !SomeNonzero(b) && (a == [] || SomeNonzero(a)) {
        LoneZeroApart(a, b);
      } else if a != [] && !SomeNonzero(a) && (b == [] || SomeNonzero(b)) {
        LoneZeroApart(b, a);
      } else if a != [] && !SomeNonzero(a) {
        assert (a + [0])[..|a|] == a && (b + [0])[..|b|] == b;
      }
    }
  }

  // ---------------------------------------------------------------- length

  function Power(b: Base, n: nat): nat { if n == 0 then 1 else TimesBase(Power(b, n - 1), b) }

  lemma {:induction false} ValueBelowPower(ds: seq<int>, b: Base)
    requires InBase(ds, b)
    ensures Value(ds, b) <= Power(b, |ds|) - 1
  {
    if ds != [] {
      ValueBelowPower(ds[..|ds| - 1], b);
    }
  }

  lemma {:induction false} DigitsFit(v: nat, b: Base, n: nat)
    requires v < Power(b, n)
    ensures |Digits(v, b)| <= n
    decreases n
  {
    if v > 0 {
      DigitsFit(Quotient(v, b), b, n - 1);
    }
  }

  /** Seven digits of base 58 hold five bytes. */
  lemma {:induction false} SevenForFive(k: nat)
    ensures Power(B256, 5 * k) <= Power(B58, 7 * k)
  {
    if k > 0 {
      SevenForFive(k - 1);
      FiveTimes(5 * (k - 1));
      SevenTimes(7 * (k - 1));
    }
  }

  lemma FiveTimes(n: nat)
    ensures Power(B256, n + 5) == 1099511627776 * Power(B256, n)
  {
    assert Power(B256, n + 2) == 65536 * Power(B256, n);
    assert Power(B256, n + 4) == 65536 * Power(B256, n + 2);
  }

  lemma SevenTimes(n: nat)
    ensures Power(B58, n + 7) == 2207984167552 * Power(B58, n)
  {
    assert Power(B58, n + 2) == 3364 * Power(B58, n);
    assert Power(B58, n + 4) == 3364 * Power(B58, n + 2);
    assert Power(B58, n + 6) == 3364 * Power(B58, n + 4);
  }

  lemma {:induction false} PowerGrows(b: Base, m: nat, n: nat)
    requires m <= n
    ensures 1 <= Power(b, m) <= Power(b, n)
    decreases n
  {
    if m < n {
      PowerGrows(b, m, n - 1);
    } else if n > 0 {
      PowerGrows(b, 0, n - 1);
    }
  }

  /** The digits number at most seven for every five bytes begun. */
  lemma DigitsAreBounded(bytes: seq<byte>)
    requires bytes != []
    ensures Value(bytes, B256) >= 0
    ensures |EncoderDigits(Value(bytes, B256))| <= 7 * ((|bytes| + 4) / 5)
  {
    var k := (|bytes| + 4) / 5;
    ValueNonNegative(bytes, B256);
    ValueBelowPower(bytes, B256);
    PowerGrows(B256, |bytes|, 5 * k);
    SevenForFive(k);
    DigitsFit(Value(bytes, B256), B58, 7 * k);
  }
}
