/** The text encodings of the portable bundle (axon/invocation/bundle.go): lower
    case hexadecimal and canonical decimal uint64. */
module TextEncodings {
  import opened Wrappers
  import opened ByteStrings

  // ---- Hexadecimal ----

  function HexDigit(n: int): byte
    requires 0 <= n < 16
  {
    if n < 10 then (48 + n) as byte else (87 + n) as byte
  }

  function DigitValue(c: byte): (v: Option<int>)
    ensures v.Some? ==> 0 <= v.value < 16
  {
    if 48 <= c <= 57 then Some(c as int - 48)
    else if 97 <= c <= 102 then Some(c as int - 87)
    else if 65 <= c <= 70 then Some(c as int - 55)
    else None
  }

  /** hex.EncodeToString. */
  function Hex(b: Bytes): Bytes {
    if b == [] then [] else [HexDigit(b[0] as int / 16), HexDigit(b[0] as int % 16)] + Hex(b[1..])
  }

  /** hex.DecodeString: either case, even length, digits only. */
  function Unhex(s: Bytes): Option<Bytes> {
    if s == [] then Some([])
    else if |s| == 1 then None
    else
      var high, low, rest := DigitValue(s[0]), DigitValue(s[1]), Unhex(s[2..]);
      if high.None? || low.None? || rest.None? then None
      else Some([(16 * high.value + low.value) as byte] + rest.value)
  }

  lemma DigitRoundTrip(n: int)
    requires 0 <= n < 16
    ensures DigitValue(HexDigit(n)) == Some(n)
  {
  }

  lemma {:induction false} HexRoundTrip(b: Bytes)
    ensures Unhex(Hex(b)) == Some(b)
  {
    if b != [] {
      HexRoundTrip(b[1..]);
      var n := b[0] as int;
      DigitRoundTrip(n / 16);
      DigitRoundTrip(n % 16);
      var s := Hex(b);
      assert s[0] == HexDigit(n / 16) && s[1] == HexDigit(n % 16) && s[2..] == Hex(b[1..]);
      assert b == [b[0]] + b[1..];
    }
  }

  /** Two digits a byte, high half first, from 0123456789abcdef. */
  lemma {:induction false} HexSpelled(b: Bytes, i: nat)
    requires i < |b|
    ensures |Hex(b)| == 2 * |b|
    ensures Hex(b)[2 * i] as int == "0123456789abcdef"[b[i] as int / 16] as int
    ensures Hex(b)[2 * i + 1] as int == "0123456789abcdef"[b[i] as int % 16] as int
    decreases |b|
  {
    DigitSpelled(b[i] as int / 16);
    DigitSpelled(b[i] as int % 16);
    hide HexDigit;
    if i > 0 {
      HexSpelled(b[1..], i - 1);
    } else if |b| > 1 {
      HexSpelled(b[1..], 0);
    }
  }

  lemma DigitSpelled(n: int)
    requires 0 <= n < 16
    ensures HexDigit(n) as int == "0123456789abcdef"[n] as int
  {
  }

  /** A digit of either case. */
  predicate DigitIs(c: byte, n: int)
    requires 0 <= n < 16
  {
    c as int == "0123456789abcdef"[n] as int || c as int == "0123456789ABCDEF"[n] as int
  }

  lemma DigitExactly(c: byte, n: int)
    requires 0 <= n < 16
    ensures DigitValue(c) == Some(n) <==> DigitIs(c, n)
  {
  }

  ghost predicate HexOf(s: Bytes, b: Bytes) {
    |s| == 2 * |b|
    && forall i :: 0 <= i < |b| ==> DigitIs(s[2 * i], b[i] as int / 16) && DigitIs(s[2 * i + 1], b[i] as int % 16)
  }

  lemma HexOfHead(s: Bytes, b: Bytes)
    requires |s| >= 2 && b != []
    ensures HexOf(s, b) <==>
      DigitIs(s[0], b[0] as int / 16) && DigitIs(s[1], b[0] as int % 16) && HexOf(s[2..], b[1..])
  {
    hide DigitIs;
    var t, c := s[2..], b[1..];
    if HexOf(s, b) {
      forall i | 0 <= i < |c| ensures DigitIs(t[2 * i], c[i] as int / 16) && DigitIs(t[2 * i + 1], c[i] as int % 16) {
        assert t[2 * i] == s[2 * (i + 1)] && t[2 * i + 1] == s[2 * (i + 1) + 1] && c[i] == b[i + 1];
      }
      assert DigitIs(s[2 * 0], b[0] as int / 16) && DigitIs(s[2 * 0 + 1], b[0] as int % 16);
    }
    if DigitIs(s[0], b[0] as int / 16) && DigitIs(s[1], b[0] as int % 16) && HexOf(t, c) {
      forall i | 0 <= i < |b| ensures DigitIs(s[2 * i], b[i] as int / 16) && DigitIs(s[2 * i + 1], b[i] as int % 16) {
        if i > 0 {
          assert t[2 * (i - 1)] == s[2 * i] && t[2 * (i - 1) + 1] == s[2 * i + 1] && c[i - 1] == b[i];
        }
      }
    }
  }

  lemma UnhexHead(s: Bytes, b: Bytes)
    requires |s| >= 2
    ensures Unhex(s) == Some(b) <==>
      b != [] && DigitValue(s[0]) == Some(b[0] as int / 16) && DigitValue(s[1]) == Some(b[0] as int % 16)
      && Unhex(s[2..]) == Some(b[1..])
  {
    hide DigitValue;
    var high, low, rest := DigitValue(s[0]), DigitValue(s[1]), Unhex(s[2..]);
    if high.Some? && low.Some? && rest.Some? {
      var n := 16 * high.value + low.value;
      assert n / 16 == high.value && n % 16 == low.value;
      assert Unhex(s) == Some([n as byte] + rest.value);
      if b != [] {
        assert b == [b[0]] + b[1..];
      }
    }
  }

  /** A text decodes to exactly the bytes it spells, two digits each. */
  lemma {:induction false} UnhexExactly(s: Bytes, b: Bytes)
    ensures Unhex(s) == Some(b) <==> HexOf(s, b)
    decreases |s|
  {
    if |s| >= 2 {
      UnhexHead(s, b);
      hide Unhex, DigitValue, DigitIs;
      if b != [] {
        UnhexExactly(s[2..], b[1..]);
        HexOfHead(s, b);
        DigitExactly(s[0], b[0] as int / 16);
        DigitExactly(s[1], b[0] as int % 16);
      }
    }
  }

  // ---- Decimal ----

  function Decimal(n: nat): Bytes {
    if n < 10 then [(48 + n) as byte] else Decimal(n / 10) + [(48 + n % 10) as byte]
  }

  predicate IsDigit(c: byte) {
    48 <= c <= 57
  }

  function Value(s: Bytes): int {
    if s == [] then 0 else 10 * Value(s[..|s| - 1]) + (s[|s| - 1] as int - 48)
  }

  ghost predicate AllDigits(s: Bytes) {
    forall i :: 0 <= i < |s| ==> IsDigit(s[i])
  }

  /** Digits only, and no leading zero except for zero itself. */
  ghost predicate CanonicalDigits(s: Bytes) {
    s != [] && (|s| == 1 || s[0] != 48) && AllDigits(s)
  }

  /** parseDecimalU64. */
  ghost function DecimalU64(s: Bytes): Option<U64> {
    if CanonicalDigits(s) && 0 <= Value(s) < TWO_64 then Some(Value(s)) else None
  }

  lemma {:induction false} DecimalIsCanonical(n: nat)
    ensures CanonicalDigits(Decimal(n)) && Value(Decimal(n)) == n && (n > 0 ==> Decimal(n)[0] != 48)
  {
    if n < 10 {
      assert Decimal(n)[..0] == [];
    } else {
      DecimalIsCanonical(n / 10);
      var head, last := Decimal(n / 10), (48 + n % 10) as byte;
      var s := head + [last];
      assert s[..|s| - 1] == head && s[|s| - 1] == last && s[0] == head[0];
    }
  }

  lemma {:induction false} ValueNonNegative(s: Bytes)
    requires AllDigits(s)
    ensures 0 <= Value(s)
  {
    if s != [] {
      ValueNonNegative(s[..|s| - 1]);
    }
  }

  lemma {:induction false} CanonicalIsDecimal(s: Bytes)
    requires CanonicalDigits(s)
    ensures Value(s) >= 0 && Decimal(Value(s)) == s && (s[0] != 48 ==> Value(s) > 0)
  {
    ValueNonNegative(s);
    var n := |s| - 1;
    if n == 0 {
      assert s == [s[0]] && s[..0] == [];
    } else {
      CanonicalIsDecimal(s[..n]);
      assert s == s[..n] + [s[n]];
      assert Value(s) / 10 == Value(s[..n]) && Value(s) % 10 == s[n] as int - 48;
    }
  }

  /** Reading and writing are inverse: exactly one text per number, and every
      text that is read is that one. */
  lemma DecimalBijection(s: Bytes, n: U64)
    ensures DecimalU64(s) == Some(n) <==> s == Decimal(n)
  {
    if DecimalU64(s) == Some(n) {
      CanonicalIsDecimal(s);
    }
    DecimalIsCanonical(n);
  }

  lemma {:induction false} ValueGrows(s: Bytes, i: nat)
    requires i <= |s| && AllDigits(s)
    ensures Value(s[..i]) <= Value(s)
    decreases |s| - i
  {
    ValueNonNegative(s[..i]);
    if i < |s| {
      assert s[..i + 1][..i] == s[..i];
      ValueGrows(s, i + 1);
    } else {
      assert s[..i] == s;
    }
  }

  method ParseDecimalU64(s: Bytes) returns (r: Option<U64>)
    ensures r == DecimalU64(s)
  {
    if |s| == 0 || (|s| > 1 && s[0] == 48) {
      return None;
    }
    for i := 0 to |s|
      invariant AllDigits(s[..i])
    {
      if s[i] < 48 || s[i] > 57 {
        return None;
      }
      assert s[..i + 1] == s[..i] + [s[i]];
    }
    assert s[..|s|] == s;
    var n: int := 0;
    for i := 0 to |s|
      invariant n == Value(s[..i]) && 0 <= n < TWO_64
    {
      assert s[..i + 1][..i] == s[..i];
      assert Value(s[..i + 1]) == 10 * n + (s[i] as int - 48);
      n := 10 * n + (s[i] as int - 48);
      if n >= TWO_64 {
        ValueGrows(s, i + 1);
        return None;
      }
    }
    return Some(n);
  }
}
