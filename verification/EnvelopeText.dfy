/**
 The text of a secure envelope on the wire and the size limits that apply to it: the sender's frame
 limit, the receiver's line limit and the validator's cap on the ciphertext field.
 */
module EnvelopeText {
  import opened ProtocolContracts

  type Byte = b: nat | b < 256

  // ---------- decimal counters ----------

  function DigitOf(n: nat): char
    requires n < 10
  {
    "0123456789"[n]
  }

  predicate IsDigit(c: char) { '0' <= c <= '9' }

  function DigitValue(c: char): nat
    requires IsDigit(c)
  {
    c as int - 48
  }

  /** The decimal text of a counter (`bigint.toString()`). */
  function Decimal(n: nat): (text: string)
    ensures |text| >= 1
    ensures forall c <- text :: IsDigit(c)
  {
    if n < 10 then [DigitOf(n)] else Decimal(n / 10) + [DigitOf(n % 10)]
  }

  /** The number a decimal text stands for (`BigInt(text)`). */
  function ParseDecimal(text: string): nat
    requires forall c <- text :: IsDigit(c)
  {
    if text == [] then 0
    else
      assert text[|text| - 1] in text;
      10 * ParseDecimal(text[..|text| - 1]) + DigitValue(text[|text| - 1])
  }

  /** The receiver reads back the counter that the sender wrote. */
  lemma {:induction false} DecimalRoundTrip(n: nat)
    ensures ParseDecimal(Decimal(n)) == n
  {
    if n < 10 {
      assert Decimal(n)[..0] == [];
    } else {
      DecimalRoundTrip(n / 10);
      var text := Decimal(n);
      assert text[..|text| - 1] == Decimal(n / 10);
    }
  }

  function PowerOfTen(k: nat): nat { if k == 0 then 1 else 10 * PowerOfTen(k - 1) }

  lemma {:induction false} DecimalLength(n: nat, k: nat)
    requires k >= 1 && n < PowerOfTen(k)
    ensures |Decimal(n)| <= k
  {
    if n >= 10 {
      DecimalLength(n / 10, k - 1);
    }
  }

  // ---------- base64 ----------

  predicate IsBase64Char(c: char) {
    'A' <= c <= 'Z' || 'a' <= c <= 'z' || IsDigit(c) || c == '+' || c == '/' || c == '='
  }

  function Sextet(n: nat): (c: char)
    requires n < 64
    ensures IsBase64Char(c)
  {
    if n < 26 then 'A' + n as char
    else if n < 52 then 'a' + (n - 26) as char
    else if n < 62 then '0' + (n - 52) as char
    else if n == 62 then '+' else '/'
  }

  /** One group of three bytes as four characters. */
  function Group(b0: Byte, b1: Byte, b2: Byte): (text: string)
    ensures |text| == 4
  {
    [Sextet(b0 / 4), Sextet(b0 % 4 * 16 + b1 / 16), Sextet(b1 % 16 * 4 + b2 / 64), Sextet(b2 % 64)]
  }

  /** Base64 as section 4 of RFC 4648 has it, three bytes at a time with padding at the end. */
  function Base64(bytes: seq<Byte>): string {
    if |bytes| == 0 then ""
    else if |bytes| == 1 then Group(bytes[0], 0, 0)[..2] + "=="
    else if |bytes| == 2 then Group(bytes[0], bytes[1], 0)[..3] + "="
    else Group(bytes[0], bytes[1], bytes[2]) + Base64(bytes[3..])
  }

  function Base64Length(n: nat): nat { 4 * ((n + 2) / 3) }

  predicate IsBase64Text(text: string) { forall c <- text :: IsBase64Char(c) }

  lemma GroupIsText(b0: Byte, b1: Byte, b2: Byte)
    ensures IsBase64Text(Group(b0, b1, b2))
  {
  }

  lemma OneGroupMore(n: nat)
    requires n >= 3
    ensures Base64Length(n) == 4 + Base64Length(n - 3)
  {
  }

  lemma {:induction false} Base64TextLength(bytes: seq<Byte>)
    ensures |Base64(bytes)| == Base64Length(|bytes|)
    ensures IsBase64Text(Base64(bytes))
  {
    if |bytes| >= 3 {
      var group := Group(bytes[0], bytes[1], bytes[2]);
      Base64TextLength(bytes[3..]);
      GroupIsText(bytes[0], bytes[1], bytes[2]);
      OneGroupMore(|bytes|);
      assert Base64(bytes) == group + Base64(bytes[3..]);
    } else if |bytes| == 2 {
      GroupIsText(bytes[0], bytes[1], 0);
    } else if |bytes| == 1 {
      GroupIsText(bytes[0], 0, 0);
    }
  }

  // ---------- envelopes ----------

  const TAG_BYTES := 16

  const BEFORE_COUNTER := "{\"kind\":\"secure\",\"counter\":\""
  const BEFORE_CIPHERTEXT := "\",\"ciphertext\":\""
  const BEFORE_TAG := "\",\"authTag\":\""
  const AFTER_TAG := "\"}"

  /** `JSON.stringify` of a secure envelope; none of the four fields needs an escape. */
  function EnvelopeLine(counter: nat, ciphertext: seq<Byte>, tag: seq<Byte>): string {
    Join(BEFORE_COUNTER, Decimal(counter), BEFORE_CIPHERTEXT, Base64(ciphertext), BEFORE_TAG, Base64(tag), AFTER_TAG)
  }

  function Join(a: string, b: string, c: string, d: string, e: string, f: string, g: string): string {
    a + b + c + d + e + f + g
  }

  predicate IsPlain(c: char) { c < 128 as char && c != '\n' }

  /** One line of ASCII text: no character takes more than one byte, and none is a newline. */
  predicate IsAsciiLine(text: string) { forall k | 0 <= k < |text| :: IsPlain(text[k]) }

  lemma JoinLength(a: string, b: string, c: string, d: string, e: string, f: string, g: string)
    requires IsAsciiLine(a) && IsAsciiLine(b) && IsAsciiLine(c) && IsAsciiLine(d)
    requires IsAsciiLine(e) && IsAsciiLine(f) && IsAsciiLine(g)
    ensures |Join(a, b, c, d, e, f, g)| == |a| + |b| + |c| + |d| + |e| + |f| + |g|
    ensures IsAsciiLine(Join(a, b, c, d, e, f, g))
  {
  }

  lemma Base64IsPlain(text: string)
    requires IsBase64Text(text)
    ensures IsAsciiLine(text)
  {
    forall k | 0 <= k < |text| ensures IsPlain(text[k]) {
      assert text[k] in text;
    }
  }

  lemma DecimalIsPlain(n: nat)
    ensures IsAsciiLine(Decimal(n))
  {
    forall k | 0 <= k < |Decimal(n)| ensures IsPlain(Decimal(n)[k]) {
      assert Decimal(n)[k] in Decimal(n);
    }
  }

  lemma FixedTexts()
    ensures IsAsciiLine(BEFORE_COUNTER) && |BEFORE_COUNTER| == 28
    ensures IsAsciiLine(BEFORE_CIPHERTEXT) && |BEFORE_CIPHERTEXT| == 16
    ensures IsAsciiLine(BEFORE_TAG) && |BEFORE_TAG| == 13
    ensures IsAsciiLine(AFTER_TAG) && |AFTER_TAG| == 2
  {
  }

  /** The length of a frame, newline included, for a plaintext of `plaintextBytes` bytes: AES-GCM keeps the length. */
  function FrameBytes(counter: nat, plaintextBytes: nat): nat {
    84 + |Decimal(counter)| + Base64Length(plaintextBytes)
  }

  predicate FrameFits(counter: nat, plaintextBytes: nat) {
    FrameBytes(counter, plaintextBytes) <= MAXIMUM_FRAME_BYTES
  }

  /** The envelope is one line of ASCII text and `FrameBytes` is its length with the newline added. */
  lemma EnvelopeFrameLength(counter: nat, ciphertext: seq<Byte>, tag: seq<Byte>)
    requires |tag| == TAG_BYTES
    ensures |EnvelopeLine(counter, ciphertext, tag)| + 1 == FrameBytes(counter, |ciphertext|)
    ensures IsAsciiLine(EnvelopeLine(counter, ciphertext, tag))
  {
    Base64TextLength(ciphertext);
    Base64TextLength(tag);
    Base64IsPlain(Base64(ciphertext));
    Base64IsPlain(Base64(tag));
    DecimalIsPlain(counter);
    FixedTexts();
    JoinLength(BEFORE_COUNTER, Decimal(counter), BEFORE_CIPHERTEXT, Base64(ciphertext), BEFORE_TAG, Base64(tag), AFTER_TAG);
  }

  /** The longest plaintext that fits with any counter the 20-digit field can hold. */
  const MAXIMUM_PLAINTEXT_BYTES := 49074

  /** What `ProtocolValidator.secureEnvelope` asks of the text fields. */
  predicate EnvelopeFieldsAccepted(counter: string, ciphertext: string, tag: string) {
    && 1 <= |counter| <= 20 && (forall c <- counter :: IsDigit(c))
    && 1 <= |ciphertext| <= MAXIMUM_FRAME_BYTES && IsBase64Text(ciphertext)
    && 1 <= |tag| <= 64 && IsBase64Text(tag)
  }

  lemma BoundArithmetic(n: nat)
    requires 1 <= n <= MAXIMUM_PLAINTEXT_BYTES
    ensures 4 <= Base64Length(n) <= 65432
  {
  }

  /**
   One bound for the three limits: below it an envelope passes the sender's frame limit, the
   receiver's line limit (its line and the newline) and the validator's field caps together.
   */
  lemma PlaintextBoundFitsEveryLayer(counter: nat, ciphertext: seq<Byte>, tag: seq<Byte>)
    requires counter < PowerOfTen(20) && |tag| == TAG_BYTES
    requires 1 <= |ciphertext| <= MAXIMUM_PLAINTEXT_BYTES
    ensures FrameFits(counter, |ciphertext|)
    ensures |EnvelopeLine(counter, ciphertext, tag)| + 1 <= MAXIMUM_FRAME_BYTES
    ensures EnvelopeFieldsAccepted(Decimal(counter), Base64(ciphertext), Base64(tag))
  {
    DecimalLength(counter, 20);
    EnvelopeFrameLength(counter, ciphertext, tag);
    BoundArithmetic(|ciphertext|);
    Base64TextLength(ciphertext);
    Base64TextLength(tag);
  }

  lemma GroupsThatFit(room: int, n: nat)
    ensures 4 * ((n + 2) / 3) <= room <==> 0 <= room && n <= room / 4 * 3
  {
    var groups := (n + 2) / 3;
    assert 3 * groups <= n + 2 < 3 * groups + 3;
  }

  /** Exactly which plaintext lengths fit: the bound shrinks by three bytes per four digits of the counter. */
  lemma FrameFitsIff(counter: nat, plaintextBytes: nat)
    ensures FrameFits(counter, plaintextBytes) <==>
            |Decimal(counter)| <= 65452 && plaintextBytes <= (65452 - |Decimal(counter)|) / 4 * 3
  {
    GroupsThatFit(65452 - |Decimal(counter)|, plaintextBytes);
  }

  /** No larger bound works for every 20-digit counter: one byte more and such a frame is refused. */
  lemma PlaintextBoundIsTight(counter: nat)
    requires |Decimal(counter)| == 20
    ensures FrameFits(counter, MAXIMUM_PLAINTEXT_BYTES)
    ensures !FrameFits(counter, MAXIMUM_PLAINTEXT_BYTES + 1)
  {
    FrameFitsIff(counter, MAXIMUM_PLAINTEXT_BYTES);
    FrameFitsIff(counter, MAXIMUM_PLAINTEXT_BYTES + 1);
  }

  /** The form the session proofs use. */
  lemma FitsBelowBound(counter: nat, plaintextBytes: nat)
    requires counter < 0x1_0000_0000_0000_0000
    requires plaintextBytes <= MAXIMUM_PLAINTEXT_BYTES
    ensures FrameFits(counter, plaintextBytes)
  {
    assert PowerOfTen(20) == 100000000000000000000 by {
      assert PowerOfTen(5) == 100000;
      assert PowerOfTen(10) == 10000000000;
      assert PowerOfTen(15) == 1000000000000000;
    }
    DecimalLength(counter, 20);
    FrameFitsIff(counter, plaintextBytes);
  }
}
