/**
 * Identifiers: a prefix and a 128-bit value written in 26 base-32 characters. The encoder shifts bytes through a small
 * accumulator; it is proved against the positional value of the bytes.
 */
module Id {
  const ENCODED_LENGTH: nat := 26
  const ALPHABET: string := "0123456789ABCDEFGHJKMNPQRSTVWXYZ"

  // ---------------------------------------------------------------------------
  // Positional numbers
  // ---------------------------------------------------------------------------

  predicate DigitsBelow(s: seq<nat>, base: nat) { forall i | 0 <= i < |s| :: s[i] < base }

  /** The value of digits, most significant first. */
  function Value(s: seq<nat>, base: nat): nat { if s == [] then 0 else Value(s[..|s| - 1], base) * base + s[|s| - 1] }

  lemma Euclid(n: nat, base: nat)
    requires base > 0
    ensures 0 <= n / base && 0 <= n % base < base && n == (n / base) * base + n % base
  {
  }

  function Digits(n: nat, base: nat, count: nat): (s: seq<nat>)
    requires base > 0
    ensures |s| == count && DigitsBelow(s, base)
    decreases count
  {
    Euclid(n, base);
    if count == 0 then [] else Digits(n / base, base, count - 1) + [n % base]
  }

  lemma Multiple(k: nat, base: nat)
    requires k > 0
    ensures k * base >= base
  {
    assert k * base == (k - 1) * base + base;
    assert (k - 1) * base >= 0;
  }

  /** Numbers with a last digit below the base compare by their quotients, then by that digit. */
  lemma LastDigit(v: nat, d: nat, w: nat, e: nat, base: nat)
    requires d < base && e < base
    ensures v * base + d < w * base + e <==> v < w || (v == w && d < e)
    ensures v * base + d == w * base + e <==> v == w && d == e
  {
    if v < w {
      Multiple(w - v, base);
      assert w * base == v * base + (w - v) * base;
    } else if v > w {
      Multiple(v - w, base);
      assert v * base == w * base + (v - w) * base;
    }
  }

  lemma DivideBack(h: nat, d: nat, base: nat)
    requires d < base
    ensures (h * base + d) / base == h && (h * base + d) % base == d
  {
    var n := h * base + d;
    Euclid(n, base);
    LastDigit(h, d, n / base, n % base, base);
  }

  lemma QuotientBelow(n: nat, base: nat, p: nat)
    requires base > 0 && n < p * base
    ensures 0 <= n / base < p
  {
    Euclid(n, base);
    LastDigit(n / base, n % base, p, 0, base);
  }

  lemma {:induction false} DigitsOfValue(s: seq<nat>, base: nat)
    requires base > 0 && DigitsBelow(s, base)
    ensures Digits(Value(s, base), base, |s|) == s
    decreases |s|
  {
    if s != [] {
      var n := |s| - 1;
      DivideBack(Value(s[..n], base), s[n], base);
      DigitsOfValue(s[..n], base);
      assert s[..n] + [s[n]] == s;
    }
  }

  function Power(base: nat, k: nat): nat { if k == 0 then 1 else Power(base, k - 1) * base }

  lemma ValueSnoc(s: seq<nat>, d: nat, base: nat)
    ensures Value(s + [d], base) == Value(s, base) * base + d
  {
    assert (s + [d])[..|s|] == s;
  }

  lemma {:induction false} ValueOfDigits(n: nat, base: nat, count: nat)
    requires base > 0 && n < Power(base, count)
    ensures Value(Digits(n, base, count), base) == n
    decreases count
  {
    if count > 0 {
      Euclid(n, base);
      QuotientBelow(n, base, Power(base, count - 1));
      ValueOfDigits(n / base, base, count - 1);
      ValueSnoc(Digits(n / base, base, count - 1), n % base, base);
    }
  }

  lemma {:induction false} ValueBelow(s: seq<nat>, base: nat)
    requires base > 0 && DigitsBelow(s, base)
    ensures Value(s, base) < Power(base, |s|)
    decreases |s|
  {
    if s != [] {
      var n := |s| - 1;
      ValueBelow(s[..n], base);
      LastDigit(Value(s[..n], base), s[n], Power(base, n), 0, base);
    }
  }

  /** The lexicographic order of sequences of the same length: the first difference decides. */
  ghost predicate Before(a: seq<nat>, b: seq<nat>) {
    |a| == |b| && exists k :: 0 <= k < |a| && a[..k] == b[..k] && a[k] < b[k]
  }

  lemma BeforeSnoc(a: seq<nat>, b: seq<nat>)
    requires |a| == |b| > 0
    ensures var n := |a| - 1; Before(a, b) <==> Before(a[..n], b[..n]) || (a[..n] == b[..n] && a[n] < b[n])
  {
    var n := |a| - 1;
    var x, y := a[..n], b[..n];
    if Before(a, b) {
      var k :| 0 <= k < |a| && a[..k] == b[..k] && a[k] < b[k];
      if k < n {
        assert x[..k] == a[..k] && y[..k] == b[..k] && x[k] < y[k];
      }
    }
    if Before(x, y) {
      var k :| 0 <= k < n && x[..k] == y[..k] && x[k] < y[k];
      assert a[..k] == x[..k] && b[..k] == y[..k] && a[k] < b[k];
    }
  }

  /** For digit sequences of the same length, the order of values is the lexicographic order. */
  lemma {:induction false} ValueKeepsOrder(a: seq<nat>, b: seq<nat>, base: nat)
    requires base > 0 && |a| == |b| && DigitsBelow(a, base) && DigitsBelow(b, base)
    ensures Before(a, b) <==> Value(a, base) < Value(b, base)
    ensures a == b <==> Value(a, base) == Value(b, base)
    decreases |a|
  {
    if a != [] {
      var n := |a| - 1;
      var x, y := a[..n], b[..n];
      ValueKeepsOrder(x, y, base);
      BeforeSnoc(a, b);
      LastDigit(Value(x, base), a[n], Value(y, base), b[n], base);
      assert a == x + [a[n]] && b == y + [b[n]];
    }
  }

  // ---------------------------------------------------------------------------
  // The encoding
  // ---------------------------------------------------------------------------

  type Raw = s: seq<nat> | |s| == 16 && DigitsBelow(s, 256) witness Digits(0, 256, 16)

  function Text(digits: seq<nat>): (s: string)
    requires DigitsBelow(digits, 32)
    ensures |s| == |digits|
  {
    seq(|digits|, i requires 0 <= i < |digits| => ALPHABET[digits[i]])
  }

  /** The 128-bit value of the bytes, in 26 base-32 digits. */
  function Encoded(raw: Raw): string { Text(Digits(Value(raw, 256), 32, ENCODED_LENGTH)) }

  function TwoTo(bits: nat): (p: nat)
    ensures p > 0
  {
    if bits == 0 then 1 else 2 * TwoTo(bits - 1)
  }

  lemma TwoToMore(bits: nat)
    ensures TwoTo(bits + 5) == 32 * TwoTo(bits) && TwoTo(bits + 8) == 256 * TwoTo(bits)
  {
    assert TwoTo(bits + 2) == 4 * TwoTo(bits) && TwoTo(bits + 4) == 4 * TwoTo(bits + 2);
    assert TwoTo(bits + 6) == 4 * TwoTo(bits + 4) && TwoTo(bits + 8) == 4 * TwoTo(bits + 6);
  }

  /** A byte moves into the accumulator. */
  lemma ByteIn(v: nat, d: nat, p: nat, a: nat, r: nat)
    requires v == d * p + a
    ensures v * 256 + r == d * (256 * p) + (a * 256 + r)
  {
    assert d * p * 256 == d * (256 * p);
  }

  /** A digit moves out of the accumulator. */
  lemma DigitOut(v: nat, d: nat, p: nat, a: nat)
    requires p > 0 && v == d * (32 * p) + a && a < 32 * p
    ensures a / p < 32 && v == (d * 32 + a / p) * p + a % p && a % p < p && (a / p) % 32 == a / p
  {
    QuotientBelow(a, p, 32);
    assert a == (a / p) * p + a % p;
    assert (d * 32 + a / p) * p == d * 32 * p + (a / p) * p;
  }

  /**
   * The encoder: bytes enter an accumulator of at most twelve bits and leave it five bits at a time.
   */
  method Encode(raw: Raw) returns (s: string)
    ensures s == Encoded(raw)
  {
    hide Holds, Value, TwoTo;
    var out: seq<nat> := [raw[0] / 32];
    var accumulator: nat, bits: nat, input: nat := raw[0] % 32, 5, 1;
    FirstDigit(raw);
    while |out| < ENCODED_LENGTH
      invariant 1 <= |out| <= ENCODED_LENGTH && 1 <= input <= 16 && 0 <= bits < 8 && 8 * input == 5 * |out| - 2 + bits
      invariant Holds(raw, out, accumulator, bits, input)
      decreases ENCODED_LENGTH - |out|
    {
      accumulator, bits, input := FillAccumulator(raw, out, accumulator, bits, input);
      EmitDigit(raw, out, accumulator, bits, input);
      bits := bits - 5;
      out := out + [(accumulator / TwoTo(bits)) % 32];
      accumulator := accumulator % TwoTo(bits);
    }
    AllEmitted(raw, out, accumulator, bits);
    s := Text(out);
  }

  /** What was read is what was written, followed by the accumulator. */
  ghost predicate Holds(raw: Raw, out: seq<nat>, accumulator: nat, bits: nat, input: nat) {
    && input <= 16 && DigitsBelow(out, 32) && accumulator < TwoTo(bits)
    && Value(raw[..input], 256) == Value(out, 32) * TwoTo(bits) + accumulator
  }

  lemma EmitDigit(raw: Raw, out: seq<nat>, accumulator: nat, bits: nat, input: nat)
    requires Holds(raw, out, accumulator, bits, input) && bits >= 5
    ensures Holds(raw, out + [(accumulator / TwoTo(bits - 5)) % 32], accumulator % TwoTo(bits - 5), bits - 5, input)
    ensures 0 <= accumulator % TwoTo(bits - 5) && 0 <= (accumulator / TwoTo(bits - 5)) % 32 < 32
  {
    hide TwoTo;
    var p := TwoTo(bits - 5);
    TwoToMore(bits - 5);
    DigitOut(Value(raw[..input], 256), Value(out, 32), p, accumulator);
    ValueSnoc(out, accumulator / p, 32);
  }

  lemma AllEmitted(raw: Raw, out: seq<nat>, accumulator: nat, bits: nat)
    requires |out| == 26 && bits == 0 && Holds(raw, out, accumulator, bits, 16)
    ensures DigitsBelow(out, 32) && Text(out) == Encoded(raw)
  {
    AllRead(raw, out, accumulator);
    hide Value, Digits, Holds, TwoTo;
    DigitsOfValue(out, 32);
  }

  lemma AllRead(raw: Raw, out: seq<nat>, accumulator: nat)
    requires Holds(raw, out, accumulator, 0, 16)
    ensures Value(raw, 256) == Value(out, 32) && DigitsBelow(out, 32)
  {
    hide Value;
    assert raw[..16] == raw && TwoTo(0) == 1;
  }

  lemma FirstDigit(raw: Raw)
    ensures Holds(raw, [raw[0] / 32], raw[0] % 32, 5, 1)
  {
    assert raw[..1] == [raw[0]];
    assert [raw[0]][..0] == [] && [raw[0] / 32][..0] == [];
    assert TwoTo(2) == 4 && TwoTo(4) == 16;
  }

  /** The inner loop: bytes are taken until five bits are there. */
  method FillAccumulator(raw: Raw, ghost out: seq<nat>, a0: nat, b0: nat, i0: nat) returns (accumulator: nat, bits: nat, input: nat)
    requires |out| < ENCODED_LENGTH && 1 <= i0 <= 16 && b0 < 8 && 8 * i0 == 5 * |out| - 2 + b0
    requires Holds(raw, out, a0, b0, i0)
    ensures 5 <= bits < 13 && i0 <= input <= 16 && 8 * input == 5 * |out| - 2 + bits
    ensures Holds(raw, out, accumulator, bits, input)
  {
    hide Holds;
    accumulator, bits, input := a0, b0, i0;
    while bits < 5
      invariant bits < 13 && i0 <= input <= 16 && 8 * input == 5 * |out| - 2 + bits
      invariant Holds(raw, out, accumulator, bits, input)
      decreases 16 - input
    {
      TakeByte(raw, out, accumulator, bits, input);
      accumulator := accumulator * 256 + raw[input];
      input, bits := input + 1, bits + 8;
    }
  }

  lemma TakeByte(raw: Raw, out: seq<nat>, accumulator: nat, bits: nat, input: nat)
    requires Holds(raw, out, accumulator, bits, input) && input < 16
    ensures Holds(raw, out, accumulator * 256 + raw[input], bits + 8, input + 1)
  {
    assert raw[..input + 1] == raw[..input] + [raw[input]];
    ValueSnoc(raw[..input], raw[input], 256);
    TwoToMore(bits);
    ByteIn(Value(raw[..input], 256), Value(out, 32), TwoTo(bits), accumulator, raw[input]);
  }

  // ---------------------------------------------------------------------------
  // What the encoding keeps
  // ---------------------------------------------------------------------------

  lemma {:induction false} PowerSplit(base: nat, a: nat, b: nat)
    ensures Power(base, a + b) == Power(base, a) * Power(base, b)
    decreases b
  {
    if b > 0 {
      PowerSplit(base, a, b - 1);
      Regroup(Power(base, a), Power(base, b - 1), base);
    }
  }

  lemma SmallPowers()
    ensures Power(32, 1) == 32 && Power(256, 1) == 256 && Power(32, 8) == Power(256, 5)
  {
    PowerSplit(32, 4, 4);
    PowerSplit(32, 2, 2);
    PowerSplit(32, 1, 1);
    PowerSplit(256, 4, 1);
    PowerSplit(256, 2, 2);
    PowerSplit(256, 1, 1);
  }

  /** 128 bits are 26 base-32 digits of which the first is below 8. */
  lemma PowersMeet()
    ensures Power(256, 16) == 8 * Power(32, 25)
  {
    SmallPowers();
    PowerSplit(32, 24, 1);
    PowerSplit(32, 16, 8);
    PowerSplit(32, 8, 8);
    PowerSplit(256, 15, 1);
    PowerSplit(256, 10, 5);
    PowerSplit(256, 5, 5);
  }

  lemma TextIsInjective(a: seq<nat>, b: seq<nat>)
    requires DigitsBelow(a, 32) && DigitsBelow(b, 32) && Text(a) == Text(b)
    ensures a == b
  {
    hide ALPHABET;
    assert |a| == |Text(a)| == |b|;
    forall i | 0 <= i < |a|
      ensures a[i] == b[i]
    {
      assert Text(a)[i] == Text(b)[i];
      AlphabetIncreases(a[i], b[i]);
    }
  }

  /** The order of strings, byte by byte; both have the same length. */
  ghost predicate StringBefore(s: string, t: string) {
    |s| == |t| && exists k :: 0 <= k < |s| && s[..k] == t[..k] && s[k] < t[k]
  }

  lemma NextLetter(i: nat)
    requires i < 31
    ensures ALPHABET[i] < ALPHABET[i + 1]
  {
  }

  lemma {:induction false} LaterLetter(i: nat, j: nat)
    requires i < j < 32
    ensures ALPHABET[i] < ALPHABET[j]
    decreases j
  {
    hide ALPHABET;
    NextLetter(j - 1);
    if i < j - 1 {
      LaterLetter(i, j - 1);
    }
  }

  lemma AlphabetIncreases(i: nat, j: nat)
    requires i < 32 && j < 32
    ensures ALPHABET[i] < ALPHABET[j] <==> i < j
    ensures ALPHABET[i] == ALPHABET[j] <==> i == j
  {
    hide ALPHABET;
    if i < j {
      LaterLetter(i, j);
    } else if j < i {
      LaterLetter(j, i);
    }
  }

  lemma TextPrefix(a: seq<nat>, b: seq<nat>, k: nat)
    requires DigitsBelow(a, 32) && DigitsBelow(b, 32) && |a| == |b| && k < |a|
    ensures Text(a)[..k] == Text(b)[..k] <==> a[..k] == b[..k]
  {
    if Text(a)[..k] == Text(b)[..k] {
      forall i | 0 <= i < k
        ensures a[i] == b[i]
      {
        assert Text(a)[..k][i] == Text(b)[..k][i];
        AlphabetIncreases(a[i], b[i]);
      }
    }
    if a[..k] == b[..k] {
      forall i | 0 <= i < k
        ensures Text(a)[i] == Text(b)[i]
      {
        assert a[..k][i] == b[..k][i];
      }
    }
  }

  lemma TextKeepsOrder(a: seq<nat>, b: seq<nat>)
    requires DigitsBelow(a, 32) && DigitsBelow(b, 32) && |a| == |b|
    ensures StringBefore(Text(a), Text(b)) <==> Before(a, b)
  {
    forall k: nat | k < |a|
      ensures (Text(a)[..k] == Text(b)[..k] <==> a[..k] == b[..k]) && (Text(a)[k] < Text(b)[k] <==> a[k] < b[k])
    {
      TextPrefix(a, b, k);
      AlphabetIncreases(a[k], b[k]);
    }
    hide Text;
    if Before(a, b) {
      var k :| 0 <= k < |a| && a[..k] == b[..k] && a[k] < b[k];
      assert Text(a)[..k] == Text(b)[..k] && Text(a)[k] < Text(b)[k];
    }
    if StringBefore(Text(a), Text(b)) {
      var k :| 0 <= k < |a| && Text(a)[..k] == Text(b)[..k] && Text(a)[k] < Text(b)[k];
      assert a[..k] == b[..k] && a[k] < b[k];
    }
  }

  lemma DigitsAreValue(raw: Raw)
    ensures Value(Digits(Value(raw, 256), 32, 26), 32) == Value(raw, 256) < Power(256, 16)
  {
    ValueBelow(raw, 256);
    PowersMeet();
    PowerSplit(32, 25, 1);
    SmallPowers();
    ValueOfDigits(Value(raw, 256), 32, 26);
  }

  /** Identifiers sort as their bytes do, and different bytes have different identifiers. */
  lemma EncodedKeepsOrder(a: Raw, b: Raw)
    ensures StringBefore(Encoded(a), Encoded(b)) <==> Before(a, b)
    ensures Encoded(a) == Encoded(b) <==> a == b
  {
    hide Before, StringBefore, Value, Digits, Power, Text;
    var x, y := Digits(Value(a, 256), 32, 26), Digits(Value(b, 256), 32, 26);
    DigitsAreValue(a);
    DigitsAreValue(b);
    TextKeepsOrder(x, y);
    ValueKeepsOrder(x, y, 32);
    ValueKeepsOrder(a, b, 256);
    if Encoded(a) == Encoded(b) {
      TextIsInjective(x, y);
    }
  }

  // ---------------------------------------------------------------------------
  // Validation
  // ---------------------------------------------------------------------------

  predicate PrefixOk(prefix: string) {
    prefix != "" && forall i | 0 <= i < |prefix| :: 'a' <= prefix[i] <= 'z' || '0' <= prefix[i] <= '9'
  }

  /** A payload of 26 characters of the alphabet that fits 128 bits. */
  predicate PayloadOk(payload: string) {
    |payload| == ENCODED_LENGTH && payload[0] <= '7' && forall i | 0 <= i < |payload| :: payload[i] in ALPHABET
  }

  function IndexOf(c: char, s: string): (k: nat)
    requires c in s
    ensures k < |s| && s[k] == c
  {
    if s[0] == c then 0 else 1 + IndexOf(c, s[1..])
  }

  lemma Regroup(d: nat, p: nat, base: nat)
    ensures d * (p * base) == d * p * base
  {
  }

  lemma {:induction false} LeadingDigit(s: seq<nat>, base: nat)
    requires base > 0 && s != [] && DigitsBelow(s, base)
    ensures s[0] * Power(base, |s| - 1) <= Value(s, base) < (s[0] + 1) * Power(base, |s| - 1)
    decreases |s|
  {
    if |s| == 1 {
      assert s[..0] == [] && Value(s, base) == s[0] && Power(base, 0) == 1;
    } else {
      var n := |s| - 1;
      var p, v := Power(base, n - 1), Value(s[..n], base);
      LeadingDigit(s[..n], base);
      LastDigit(v, s[n], (s[0] + 1) * p, 0, base);
      LastDigit(v, s[n], s[0] * p, 0, base);
      Regroup(s[0], p, base);
      Regroup(s[0] + 1, p, base);
    }
  }

  /** The payloads that validation accepts are exactly the encodings of 16 bytes. */
  lemma PayloadsAreEncodings(payload: string)
    ensures PayloadOk(payload) <==> exists raw: Raw :: payload == Encoded(raw)
  {
    if PayloadOk(payload) {
      var raw := RawOf(payload);
    }
    if exists raw: Raw :: payload == Encoded(raw) {
      var raw: Raw :| payload == Encoded(raw);
      EncodedIsPayload(raw);
    }
  }

  lemma EncodedIsPayload(raw: Raw)
    ensures PayloadOk(Encoded(raw))
  {
    var x := Digits(Value(raw, 256), 32, 26);
    DigitsAreValue(raw);
    LeadingDigit(x, 32);
    PowersMeet();
    FirstBelowEight(x[0], Power(32, 25), Value(raw, 256));
    SmallDigitsArePayloads(x);
  }

  lemma EighthLetter()
    ensures ALPHABET[7] == '7'
  {
  }

  lemma SmallDigitsArePayloads(x: seq<nat>)
    requires |x| == 26 && DigitsBelow(x, 32) && x[0] < 8
    ensures PayloadOk(Text(x))
  {
    EighthLetter();
    AlphabetIncreases(7, x[0]);
    forall i | 0 <= i < 26
      ensures Text(x)[i] in ALPHABET
    {
      assert Text(x)[i] == ALPHABET[x[i]];
    }
  }

  lemma FirstBelowEight(d: nat, p: nat, v: nat)
    requires d * p <= v < 8 * p
    ensures d < 8
  {
    assert d >= 8 ==> d * p == 8 * p + (d - 8) * p;
    assert d >= 8 ==> (d - 8) * p >= 0;
  }

  lemma AtMostSeven(d: nat, p: nat, v: nat)
    requires d < 8 && v < (d + 1) * p
    ensures v < 8 * p
  {
    assert 8 * p == (d + 1) * p + (7 - d) * p;
    assert (7 - d) * p >= 0;
  }

  function Indices(payload: string): (x: seq<nat>)
    requires PayloadOk(payload)
    ensures |x| == 26 && DigitsBelow(x, 32)
  {
    seq(26, i requires 0 <= i < 26 => IndexOf(payload[i], ALPHABET))
  }

  lemma IndicesSpell(payload: string)
    requires PayloadOk(payload)
    ensures Text(Indices(payload)) == payload && Indices(payload)[0] < 8
  {
    hide ALPHABET;
    var x := Indices(payload);
    assert forall i | 0 <= i < 26 :: ALPHABET[x[i]] == payload[i];
    EighthLetter();
    AlphabetIncreases(7, x[0]);
  }

  lemma RawOf(payload: string) returns (raw: Raw)
    requires PayloadOk(payload)
    ensures payload == Encoded(raw)
  {
    hide Value, Digits, Power, Text, Indices;
    var x := Indices(payload);
    IndicesSpell(payload);
    LeadingDigit(x, 32);
    PowersMeet();
    AtMostSeven(x[0], Power(32, 25), Value(x, 32));
    raw := Digits(Value(x, 32), 256, 16);
    ValueOfDigits(Value(x, 32), 256, 16);
    DigitsOfValue(x, 32);
  }

  /** A value that `New` can return for some prefix and some 16 bytes. */
  ghost predicate IsIdentifier(value: string) {
    exists prefix, raw: Raw :: PrefixOk(prefix) && value == prefix + "_" + Encoded(raw)
  }

  /** The alphabet leaves out the letters that look like digits or make words. */
  lemma AlphabetMeans()
    ensures |ALPHABET| == 32
    ensures forall i | 0 <= i < 32 ::
              var c := ALPHABET[i]; ('0' <= c <= '9' || 'A' <= c <= 'Z') && c != 'I' && c != 'L' && c != 'O' && c != 'U'
  {
  }

  method LastUnderscore(value: string) returns (k: int)
    ensures -1 <= k < |value| && (k >= 0 ==> value[k] == '_') && forall i | k < i < |value| :: value[i] != '_'
  {
    k := |value| - 1;
    while k >= 0 && value[k] != '_'
      invariant -1 <= k < |value| && forall i | k < i < |value| :: value[i] != '_'
    {
      k := k - 1;
    }
  }

  method ValidatePrefix(prefix: string) returns (ok: bool)
    ensures ok <==> PrefixOk(prefix)
    ensures ok <==> |prefix| > 0 && forall i | 0 <= i < |prefix| :: 'a' <= prefix[i] <= 'z' || '0' <= prefix[i] <= '9'
  {
    if prefix == "" {
      return false;
    }
    for i := 0 to |prefix|
      invariant forall j | 0 <= j < i :: 'a' <= prefix[j] <= 'z' || '0' <= prefix[j] <= '9'
    {
      if (prefix[i] < 'a' || prefix[i] > 'z') && (prefix[i] < '0' || prefix[i] > '9') {
        return false;
      }
    }
    return true;
  }

  method ValidatePayload(payload: string) returns (ok: bool)
    ensures ok <==> PayloadOk(payload)
  {
    hide ALPHABET;
    if |payload| != ENCODED_LENGTH || payload[0] > '7' {
      return false;
    }
    for i := 0 to |payload|
      invariant forall j | 0 <= j < i :: payload[j] in ALPHABET
    {
      if payload[i] !in ALPHABET {
        return false;
      }
    }
    return true;
  }

  /** Validation accepts exactly the identifiers that can be generated. */
  method Validate(value: string) returns (ok: bool)
    ensures ok <==> IsIdentifier(value)
  {
    hide IsIdentifier, PayloadOk, PrefixOk;
    var separator := LastUnderscore(value);
    SeparatorIsLast(value, separator);
    if separator < 1 {
      return false;
    }
    ok := ValidatePrefix(value[..separator]);
    if !ok {
      return;
    }
    ok := ValidatePayload(value[separator + 1..]);
  }

  /** The separator of an identifier is its last underscore, since payloads have none. */
  lemma SeparatorIsLast(value: string, k: int)
    requires -1 <= k < |value| && (k >= 0 ==> value[k] == '_') && forall i | k < i < |value| :: value[i] != '_'
    ensures IsIdentifier(value) <==> k >= 1 && PrefixOk(value[..k]) && PayloadOk(value[k + 1..])
  {
    hide PayloadOk, Encoded;
    if IsIdentifier(value) {
      var prefix, raw: Raw :| PrefixOk(prefix) && value == prefix + "_" + Encoded(raw);
      EncodedIsPayload(raw);
      OneSeparator(prefix, Encoded(raw), value, k);
    }
    if k >= 1 && PrefixOk(value[..k]) && PayloadOk(value[k + 1..]) {
      PayloadsAreEncodings(value[k + 1..]);
      var raw: Raw :| value[k + 1..] == Encoded(raw);
      assert value == value[..k] + "_" + Encoded(raw);
    }
  }

  lemma NotASeparator(c: char)
    requires c in ALPHABET
    ensures c != '_'
  {
  }

  lemma NoSeparator(payload: string)
    requires PayloadOk(payload)
    ensures forall i | 0 <= i < |payload| :: payload[i] != '_'
  {
    hide ALPHABET;
    forall i | 0 <= i < |payload|
      ensures payload[i] != '_'
    {
      NotASeparator(payload[i]);
    }
  }

  lemma OneSeparator(prefix: string, payload: string, value: string, k: int)
    requires value == prefix + "_" + payload && PayloadOk(payload)
    requires -1 <= k < |value| && (k >= 0 ==> value[k] == '_') && forall i | k < i < |value| :: value[i] != '_'
    ensures k == |prefix| && value[..k] == prefix && value[k + 1..] == payload
  {
    hide PayloadOk;
    var n := |prefix|;
    NoSeparator(payload);
    assert value[n] == '_';
    assert forall i | n < i < |value| :: value[i] == payload[i - n - 1];
  }
}
