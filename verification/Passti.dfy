/** The PASSTI e-money reader protocol ("Command Protocol Reader V1.12"): frames with a
    two-byte length and an XOR checksum, packed-decimal fields and the deduct messages. */
module Passti {
  import opened Text

  type Byte = b: int | 0 <= b < 256

  const STX: Byte := 0x02

  // ---------------------------------------------------------------- exclusive or

  function Pow2(k: nat): (p: nat)
    ensures p > 0
  {
    if k == 0 then 1 else 2 * Pow2(k - 1)
  }

  function XorBit(x: nat, y: nat): (r: nat)
    ensures r < 2
  {
    if x == y then 0 else 1
  }

  /** Exclusive or of the low `k` bits, bit by bit. */
  function XorBits(a: nat, b: nat, k: nat): (r: nat)
    ensures r < Pow2(k)
  {
    if k == 0 then 0 else XorBit(a % 2, b % 2) + 2 * XorBits(a / 2, b / 2, k - 1)
  }

  function Xor2(a: Byte, b: Byte): Byte {
    assert Pow2(8) == 256;
    XorBits(a, b, 8)
  }

  lemma LowBit(a: nat, b: nat, k: nat)
    requires k > 0
    ensures XorBits(a, b, k) % 2 == XorBit(a % 2, b % 2)
    ensures XorBits(a, b, k) / 2 == XorBits(a / 2, b / 2, k - 1)
  {
    BitAndRest(XorBit(a % 2, b % 2), XorBits(a / 2, b / 2, k - 1));
  }

  lemma BitAndRest(low: nat, rest: nat)
    requires low < 2
    ensures (low + 2 * rest) % 2 == low && (low + 2 * rest) / 2 == rest
  {
  }

  lemma {:induction false} BitsAssociative(a: nat, b: nat, c: nat, k: nat)
    ensures XorBits(XorBits(a, b, k), c, k) == XorBits(a, XorBits(b, c, k), k)
    decreases k
  {
    if k == 0 {
    } else {
      LowBit(a, b, k);
      LowBit(b, c, k);
      BitsAssociative(a / 2, b / 2, c / 2, k - 1);
    }
  }

  lemma {:induction false} BitsCommutative(a: nat, b: nat, k: nat)
    ensures XorBits(a, b, k) == XorBits(b, a, k)
    decreases k
  {
    if k == 0 {
    } else {
      BitsCommutative(a / 2, b / 2, k - 1);
    }
  }

  lemma {:induction false} BitsZero(a: nat, k: nat)
    requires a < Pow2(k)
    ensures XorBits(a, 0, k) == a
    decreases k
  {
    if k == 0 {
    } else {
      BitsZero(a / 2, k - 1);
    }
  }

  lemma {:induction false} BitsCancel(a: nat, b: nat, k: nat)
    requires a < Pow2(k) && b < Pow2(k)
    ensures XorBits(a, b, k) == 0 <==> a == b
    decreases k
  {
    if k == 0 {
    } else {
      BitsCancel(a / 2, b / 2, k - 1);
    }
  }

  lemma XorAssociative(a: Byte, b: Byte, c: Byte)
    ensures Xor2(Xor2(a, b), c) == Xor2(a, Xor2(b, c))
  {
    BitsAssociative(a, b, c, 8);
  }

  lemma XorCommutative(a: Byte, b: Byte)
    ensures Xor2(a, b) == Xor2(b, a)
  {
    BitsCommutative(a, b, 8);
  }

  lemma XorZero(a: Byte)
    ensures Xor2(a, 0) == a && Xor2(0, a) == a
  {
    assert Pow2(8) == 256;
    BitsZero(a, 8);
    XorCommutative(a, 0);
  }

  lemma XorCancels(a: Byte, b: Byte)
    ensures Xor2(a, b) == 0 <==> a == b
  {
    assert Pow2(8) == 256;
    BitsCancel(a, b, 8);
  }

  lemma XorShuffle(a: Byte, b: Byte, c: Byte, d: Byte)
    ensures Xor2(Xor2(a, b), Xor2(c, d)) == Xor2(Xor2(a, c), Xor2(b, d))
  {
    XorAssociative(a, b, Xor2(c, d));
    XorAssociative(b, c, d);
    XorCommutative(b, c);
    XorAssociative(c, b, d);
    XorAssociative(a, c, Xor2(b, d));
  }

  // ---------------------------------------------------------------- checksum

  /** The XOR checksum as a fold from the right. */
  function Xor(data: seq<Byte>): Byte {
    if data == [] then 0 else Xor2(data[0], Xor(data[1..]))
  }

  /** The accumulating loop of `_lrc`. */
  method Lrc(data: seq<Byte>) returns (result: Byte)
    ensures result == Xor(data)
  {
    result := 0;
    XorZero(Xor(data));
    assert data[0..] == data;
    for i := 0 to |data|
      invariant Xor2(result, Xor(data[i..])) == Xor(data)
    {
      assert data[i..][1..] == data[i + 1..];
      XorAssociative(result, data[i], Xor(data[i + 1..]));
      result := Xor2(result, data[i]);
    }
    XorZero(result);
  }

  lemma {:induction false} XorConcat(a: seq<Byte>, b: seq<Byte>)
    ensures Xor(a + b) == Xor2(Xor(a), Xor(b))
    decreases |a|
  {
    if a == [] {
      assert a + b == b;
      XorZero(Xor(b));
    } else {
      assert (a + b)[1..] == a[1..] + b;
      XorConcat(a[1..], b);
      XorAssociative(a[0], Xor(a[1..]), Xor(b));
    }
  }

  /** Byte-wise difference of two equally long strings. */
  function Difference(a: seq<Byte>, b: seq<Byte>): (d: seq<Byte>)
    requires |a| == |b|
    ensures |d| == |a|
    ensures forall i :: 0 <= i < |d| ==> d[i] == Xor2(a[i], b[i])
  {
    seq(|a|, i requires 0 <= i < |a| => Xor2(a[i], b[i]))
  }

  lemma {:induction false} XorOfDifference(a: seq<Byte>, b: seq<Byte>)
    requires |a| == |b|
    ensures Xor(Difference(a, b)) == Xor2(Xor(a), Xor(b))
    decreases |a|
  {
    if a == [] {
    } else {
      assert Difference(a, b)[1..] == Difference(a[1..], b[1..]);
      XorOfDifference(a[1..], b[1..]);
      XorShuffle(a[0], b[0], Xor(a[1..]), Xor(b[1..]));
    }
  }

  // ---------------------------------------------------------------- frames

  /** The number in two big-endian bytes. */
  function Pair(high: nat, low: nat): nat {
    high * 256 + low
  }

  function LengthField(n: nat): (field: seq<Byte>)
    ensures |field| == 2
    ensures n < 65536 ==> Pair(field[0], field[1]) == n
  {
    [n / 256 % 256, n % 256]
  }

  /** STX, big-endian length, payload, checksum over length and payload. */
  function Frame(payload: seq<Byte>): seq<Byte> {
    [STX] + LengthField(|payload|) + payload + [Xor(LengthField(|payload|) + payload)]
  }

  function BuildFrame(cmd: Byte, data: seq<Byte>): seq<Byte> {
    Frame([0xEF, 0x01, cmd] + data)
  }

  datatype Response =
    | Parsed(respCode: Byte, status: seq<Byte>, body: seq<Byte>)
    | TooShort
    | InvalidStx
    | Incomplete
    | LrcMismatch(received: Byte, calculated: Byte)
    | EmptyPayload   // a declared length of zero: `parse_response` indexes an empty payload and raises

  /** The response parser, as far as the decision goes. */
  function Parse(raw: seq<Byte>): Response {
    if |raw| < 6 then TooShort
    else if raw[0] != STX then InvalidStx
    else
      var n := Pair(raw[1], raw[2]);
      if |raw| < n + 4 then Incomplete
      else
        var payload := raw[3..3 + n];
        var calculated := Xor(raw[1..3 + n]);
        if raw[3 + n] != calculated then LrcMismatch(raw[3 + n], calculated)
        else if n == 0 then EmptyPayload
        else Parsed(payload[0],
                    if n >= 4 then payload[1..4] else [0xFF, 0xFF, 0xFF],
                    if n > 4 then payload[4..] else [])
  }

  predicate Accepted(raw: seq<Byte>) {
    Parse(raw).Parsed?
  }

  method ParseResponse(raw: seq<Byte>) returns (response: Response)
    ensures response == Parse(raw)
  {
    if |raw| < 6 { return TooShort; }
    if raw[0] != STX { return InvalidStx; }
    var n := Pair(raw[1], raw[2]);
    if |raw| < 3 + n + 1 { return Incomplete; }
    var payload := raw[3..3 + n];
    var calculated := Lrc(raw[1..3 + n]);
    if raw[3 + n] != calculated { return LrcMismatch(raw[3 + n], calculated); }
    if payload == [] { return EmptyPayload; }
    var status := if |payload| >= 4 then payload[1..4] else [0xFF, 0xFF, 0xFF];
    response := Parsed(payload[0], status, if |payload| > 4 then payload[4..] else []);
  }

  /** A frame on the wire: STX, the length with its high byte first, the payload, and the exclusive or
      of everything behind the STX. */
  lemma FrameLayout(payload: seq<Byte>)
    requires |payload| < 65536
    ensures var (raw, n) := (Frame(payload), |payload|);
      && |raw| == n + 4 && raw[0] == 0x02 && raw[1] as int * 256 + raw[2] as int == n
      && raw[3..n + 3] == payload && raw[n + 3] == Xor(raw[1..n + 3])
  {
    var (field, n) := (LengthField(|payload|), |payload|);
    var raw := Frame(payload);
    assert raw == [STX] + field + payload + [Xor(field + payload)];
    assert raw[1..n + 3] == field + payload;
  }

  /** Every refusal in terms of the bytes; what is not refused is parsed. */
  lemma Refusals(raw: seq<Byte>)
    ensures var r := Parse(raw);
      && (r.TooShort? <==> |raw| < 6)
      && (r.InvalidStx? <==> |raw| >= 6 && raw[0] != 0x02)
      && (|raw| >= 6 && raw[0] == 0x02 ==>
            var n := raw[1] as int * 256 + raw[2] as int;
            && (r.Incomplete? <==> |raw| < n + 4)
            && (n + 4 <= |raw| ==>
                  var sum := Xor(raw[1..n + 3]);
                  && (r.LrcMismatch? <==> raw[n + 3] != sum)
                  && (r.LrcMismatch? ==> r == LrcMismatch(raw[n + 3], sum))
                  && (r.EmptyPayload? <==> raw[n + 3] == sum && n == 0)))
  {
  }

  /** A payload too short for a status is given one of 0xFF bytes, and has no body. */
  lemma ShortPayload(payload: seq<Byte>, trailing: seq<Byte>)
    requires 2 <= |payload| < 4
    ensures Parse(Frame(payload) + trailing) == Parsed(payload[0], [0xFF, 0xFF, 0xFF], [])
  {
    var field := LengthField(|payload|);
    ParseFramed(field, payload, Xor(field + payload), trailing);
    assert Frame(payload) == [STX] + field + payload + [Xor(field + payload)];
  }

  /** What the parser sees in a message with the given length field, payload and checksum
      byte, when bytes of a later message may already follow it. */
  lemma ParseFramed(field: seq<Byte>, payload: seq<Byte>, check: Byte, trailing: seq<Byte>)
    requires |field| == 2 && Pair(field[0], field[1]) == |payload| && 2 <= |payload|
    ensures Parse([STX] + field + payload + [check] + trailing) ==
        if check != Xor(field + payload) then LrcMismatch(check, Xor(field + payload))
        else Parsed(payload[0],
                    if |payload| >= 4 then payload[1..4] else [0xFF, 0xFF, 0xFF],
                    if |payload| > 4 then payload[4..] else [])
  {
    var n := |payload|;
    var raw := [STX] + field + payload + [check] + trailing;
    assert |raw| >= n + 4;
    assert raw[0] == STX && raw[1] == field[0] && raw[2] == field[1];
    assert raw[3..3 + n] == payload;
    assert raw[1..3 + n] == field + payload;
    assert raw[3 + n] == check;
  }

  /** Parsing inverts framing: response code, status and body are exactly the payload, and
      trailing bytes are ignored. */
  lemma FrameRoundTrip(payload: seq<Byte>, trailing: seq<Byte>)
    requires 4 <= |payload| < 65536
    ensures var r := Parse(Frame(payload) + trailing);
      && r.Parsed?
      && [r.respCode] + r.status + r.body == payload
      && |r.status| == 3
  {
    var field := LengthField(|payload|);
    ParseFramed(field, payload, Xor(field + payload), trailing);
    var frame := Frame(payload);
    assert frame == [STX] + field + payload + [Xor(field + payload)];
    PayloadParts(payload);
  }

  lemma PayloadParts(payload: seq<Byte>)
    requires |payload| >= 4
    ensures |payload[1..4]| == 3 && [payload[0]] + payload[1..4] + payload[4..] == payload
  {
  }

  /** Behind a length field that fits, a message is accepted exactly when length, payload
      and checksum XOR to zero. */
  lemma AcceptedIff(field: seq<Byte>, rest: seq<Byte>)
    requires |field| == 2 && Pair(field[0], field[1]) == |rest| - 1 && 3 <= |rest|
    ensures Accepted([STX] + field + rest) <==> Xor(field + rest) == 0
  {
    var payload, check := rest[..|rest| - 1], rest[|rest| - 1];
    SplitCheck(field, rest);
    ParseFramed(field, payload, check, []);
    XorConcat(field + payload, [check]);
    XorOfOne(check);
    XorCancels(Xor(field + payload), check);
  }

  lemma SplitCheck(field: seq<Byte>, rest: seq<Byte>)
    requires rest != []
    ensures var payload, check := rest[..|rest| - 1], rest[|rest| - 1];
      && [STX] + field + payload + [check] + [] == [STX] + field + rest
      && field + rest == (field + payload) + [check]
  {
  }

  lemma XorOfOne(b: Byte)
    ensures Xor([b]) == b
  {
    assert [b][1..] == [];
    XorZero(b);
  }

  /** Corruption behind an intact length field is accepted exactly when the byte-wise
      differences, checksum byte included, cancel out under XOR. */
  lemma CorruptionAccepted(field: seq<Byte>, sent: seq<Byte>, got: seq<Byte>)
    requires |field| == 2 && Pair(field[0], field[1]) == |sent| - 1 && 3 <= |sent|
    requires |got| == |sent| && Accepted([STX] + field + sent)
    ensures Accepted([STX] + field + got) <==> Xor(Difference(sent, got)) == 0
  {
    AcceptedIff(field, sent);
    AcceptedIff(field, got);
    XorConcat(field, sent);
    XorConcat(field, got);
    XorOfDifference(sent, got);
    XorCancels(Xor(field), Xor(sent));
    XorCancels(Xor(field), Xor(got));
    XorCancels(Xor(sent), Xor(got));
  }

  /** Every change of a single byte of the payload or of the checksum is rejected. */
  lemma SingleByteChangeRejected(field: seq<Byte>, sent: seq<Byte>, k: nat, b: Byte)
    requires |field| == 2 && Pair(field[0], field[1]) == |sent| - 1 && 3 <= |sent|
    requires Accepted([STX] + field + sent) && k < |sent| && b != sent[k]
    ensures !Accepted([STX] + field + sent[k := b])
  {
    var got := sent[k := b];
    CorruptionAccepted(field, sent, got);
    var d := Difference(sent, got);
    XorCancels(sent[k], b);
    forall i | 0 <= i < |d| && i != k ensures d[i] == 0 { XorCancels(sent[i], sent[i]); }
    LoneByte(d, k);
  }

  lemma {:induction false} LoneByte(d: seq<Byte>, k: nat)
    requires k < |d| && forall i :: 0 <= i < |d| && i != k ==> d[i] == 0
    ensures Xor(d) == d[k]
    decreases |d|
  {
    if k == 0 {
      AllZero(d[1..]);
      XorZero(d[0]);
    } else {
      LoneByte(d[1..], k - 1);
      XorZero(d[k]);
    }
  }

  lemma {:induction false} AllZero(d: seq<Byte>)
    requires forall i :: 0 <= i < |d| ==> d[i] == 0
    ensures Xor(d) == 0
    decreases |d|
  {
    if d == [] {
    } else {
      AllZero(d[1..]);
      XorZero(0);
    }
  }

  // ---------------------------------------------------------------- packed decimals

  /** Two digits a byte; an odd number of digits gets a leading zero. */
  function ToBcd(digits: string): seq<Byte>
    requires AllDigits(digits)
  {
    if |digits| % 2 == 1 then Pack("0" + digits) else Pack(digits)
  }

  function Pack(digits: string): (packed: seq<Byte>)
    requires AllDigits(digits) && |digits| % 2 == 0
    ensures |packed| == |digits| / 2
    decreases |digits|
  {
    if digits == "" then []
    else [DigitValue(digits[0]) * 16 + DigitValue(digits[1])] + Pack(digits[2..])
  }

  predicate BcdByte(b: Byte) { b / 16 < 10 && b % 16 < 10 }

  predicate IsBcd(bytes: seq<Byte>) {
    forall i :: 0 <= i < |bytes| ==> BcdByte(bytes[i])
  }

  function TwoDigits(b: Byte): string
    requires BcdByte(b)
  {
    [DigitChar(b / 16), DigitChar(b % 16)]
  }

  function FromBcd(bytes: seq<Byte>): string
    requires IsBcd(bytes)
  {
    if bytes == [] then ""
    else TwoDigits(bytes[0]) + FromBcd(bytes[1..])
  }

  lemma PackFirst(digits: string)
    requires AllDigits(digits) && |digits| % 2 == 0 && digits != ""
    ensures Pack(digits) == [DigitValue(digits[0]) * 16 + DigitValue(digits[1])] + Pack(digits[2..])
  {
  }

  lemma UnpackFirst(b: Byte, rest: seq<Byte>)
    requires BcdByte(b) && IsBcd(rest)
    ensures IsBcd([b] + rest)
    ensures FromBcd([b] + rest) == TwoDigits(b) + FromBcd(rest)
  {
    assert ([b] + rest)[1..] == rest;
  }

  lemma {:induction false} PackRoundTrip(digits: string)
    requires AllDigits(digits) && |digits| % 2 == 0
    ensures IsBcd(Pack(digits)) && FromBcd(Pack(digits)) == digits
    decreases |digits|
  {
    if digits == "" {
    } else {
      var (high, low) := (DigitValue(digits[0]), DigitValue(digits[1]));
      PairReadsBack(digits[0], digits[1]);
      PackRoundTrip(digits[2..]);
      PackFirst(digits);
      UnpackFirst(high * 16 + low, Pack(digits[2..]));
      assert digits == [digits[0], digits[1]] + digits[2..];
    }
  }

  lemma PairReadsBack(a: char, b: char)
    requires IsDigit(a) && IsDigit(b)
    ensures var byte := DigitValue(a) * 16 + DigitValue(b); BcdByte(byte) && TwoDigits(byte) == [a, b]
  {
    DigitPair(DigitValue(a), DigitValue(b));
  }

  lemma DigitPair(high: nat, low: nat)
    requires high < 10 && low < 10
    ensures (high * 16 + low) / 16 == high && (high * 16 + low) % 16 == low
  {
  }

  /** Packing keeps every digit, up to the leading zero that evens the count. */
  lemma BcdRoundTrip(digits: string)
    requires AllDigits(digits)
    ensures IsBcd(ToBcd(digits))
    ensures FromBcd(ToBcd(digits)) == if |digits| % 2 == 1 then "0" + digits else digits
  {
    PackRoundTrip(if |digits| % 2 == 1 then "0" + digits else digits);
  }

  /** The two-byte timeout; values outside 0..9999 are refused. */
  function BcdTimeout(seconds: int): (r: Option<seq<Byte>>)
    ensures r.Some? <==> 0 <= seconds <= 9999
  {
    if 0 <= seconds <= 9999 then Some(TimeoutField(seconds)) else None
  }

  function TimeoutField(seconds: nat): seq<Byte> {
    PaddedRoundTrip(seconds, 4);
    ToBcd(ZeroFill(Decimal(seconds), 4))
  }

  lemma TimeoutRoundTrip(seconds: nat)
    requires seconds <= 9999
    ensures var field := TimeoutField(seconds);
      && |field| == 2 && IsBcd(field)
      && AllDigits(FromBcd(field)) && ParseDecimal(FromBcd(field)) == seconds
  {
    var digits := ZeroFill(Decimal(seconds), 4);
    PaddedRoundTrip(seconds, 4);
    DecimalWidth(seconds, 4);
    assert Pow10(4) == 10 * (10 * (10 * (10 * Pow10(0))));
    BcdRoundTrip(digits);
  }

  // ---------------------------------------------------------------- amounts

  /** `int.to_bytes(4, "big")`, for amounts that fit. */
  function Amount(n: nat): (bytes: seq<Byte>)
    requires n < 0x1_0000_0000
    ensures |bytes| == 4
  {
    [n / 0x100_0000, n / 0x1_0000 % 256, n / 256 % 256, n % 256]
  }

  function FromBigEndian(bytes: seq<Byte>): nat {
    if bytes == [] then 0
    else FromBigEndian(bytes[..|bytes| - 1]) * 256 + bytes[|bytes| - 1]
  }

  lemma {:induction false} AmountRoundTrip(n: nat)
    requires n < 0x1_0000_0000
    ensures FromBigEndian(Amount(n)) == n
  {
    FourBytes(Amount(n));
    ByteSplit(n);
    ByteSplit(n / 256);
    ByteSplit(n / 256 / 256);
    NestedQuotients(n);
  }

  lemma ByteSplit(n: nat)
    ensures Pair(n / 256, n % 256) == n
  {
  }

  lemma NestedQuotients(n: nat)
    ensures n / 0x1_0000 == n / 256 / 256
    ensures n / 0x100_0000 == n / 256 / 256 / 256
  {
  }

  lemma FourBytes(b: seq<Byte>)
    requires |b| == 4
    ensures FromBigEndian(b)
         == Pair(Pair(Pair(b[0], b[1]), b[2]), b[3])
  {
    assert b[..3][..2] == b[..2] && b[..2][..1] == b[..1] && b[..1][..0] == [];
    assert FromBigEndian(b[..1]) == b[0];
    assert FromBigEndian(b[..2]) == Pair(b[0], b[1]);
    assert FromBigEndian(b[..3]) == FromBigEndian(b[..2]) * 256 + b[2];
  }

  // ---------------------------------------------------------------- deduct messages

  /** Day, month, year; hour, minute, second; amount; timeout. */
  function DeductData(date: string, time: string, amount: nat, timeout: nat): seq<Byte>
    requires AllDigits(date) && |date| == 8 && AllDigits(time) && |time| == 6
    requires amount < 0x1_0000_0000 && timeout <= 9999
  {
    ToBcd(date) + ToBcd(time) + Amount(amount) + TimeoutField(timeout)
  }

  /** The deduct command; an amount beyond four bytes or a timeout beyond four digits makes
      the encoder raise. */
  function CmdDeduct(date: string, time: string, amount: int, timeout: int): (r: Option<seq<Byte>>)
    requires AllDigits(date) && |date| == 8 && AllDigits(time) && |time| == 6
    ensures r.Some? <==> 0 <= amount < 0x1_0000_0000 && 0 <= timeout <= 9999
  {
    if 0 <= amount < 0x1_0000_0000 && BcdTimeout(timeout).Some? then
      Some(BuildFrame(0x03, DeductData(date, time, amount, timeout)))
    else None
  }

  /** The fields of deduct data at their fixed offsets. */
  ghost predicate DeductFields(data: seq<Byte>, date: string, time: string, amount: nat,
                               timeout: nat)
  {
    && |data| == 13
    && IsBcd(data[..4]) && FromBcd(data[..4]) == date
    && IsBcd(data[4..7]) && FromBcd(data[4..7]) == time
    && FromBigEndian(data[7..11]) == amount
    && IsBcd(data[11..]) && AllDigits(FromBcd(data[11..]))
    && ParseDecimal(FromBcd(data[11..])) == timeout
  }

  lemma FourFields(d: seq<Byte>, t: seq<Byte>, a: seq<Byte>, o: seq<Byte>)
    requires |d| == 4 && |t| == 3 && |a| == 4 && |o| == 2
    ensures var data := d + t + a + o;
      |data| == 13 && data[..4] == d && data[4..7] == t && data[7..11] == a && data[11..] == o
  {
  }

  lemma FieldsRead(d: seq<Byte>, t: seq<Byte>, a: seq<Byte>, o: seq<Byte>, date: string, time: string,
                   amount: nat, timeout: nat)
    requires |d| == 4 && |t| == 3 && |a| == 4 && |o| == 2
    requires IsBcd(d) && FromBcd(d) == date && IsBcd(t) && FromBcd(t) == time
    requires FromBigEndian(a) == amount
    requires IsBcd(o) && AllDigits(FromBcd(o)) && ParseDecimal(FromBcd(o)) == timeout
    ensures DeductFields(d + t + a + o, date, time, amount, timeout)
  {
    FourFields(d, t, a, o);
  }

  lemma DeductDataRoundTrip(date: string, time: string, amount: nat, timeout: nat)
    requires AllDigits(date) && |date| == 8 && AllDigits(time) && |time| == 6
    requires amount < 0x1_0000_0000 && timeout <= 9999
    ensures DeductFields(DeductData(date, time, amount, timeout), date, time, amount, timeout)
  {
    var d, t, a, o := ToBcd(date), ToBcd(time), Amount(amount), TimeoutField(timeout);
    assert |d| == 4 && IsBcd(d) && FromBcd(d) == date by { BcdRoundTrip(date); }
    assert |t| == 3 && IsBcd(t) && FromBcd(t) == time by { BcdRoundTrip(time); }
    assert FromBigEndian(a) == amount by { AmountRoundTrip(amount); }
    TimeoutRoundTrip(timeout);
    FieldsRead(d, t, a, o, date, time, amount, timeout);
  }

  /** A reader that checks a deduct command's frame and decodes its data by offset gets back
      the clock, the amount and the timeout that were put in. */
  lemma DeductCommandRoundTrip(date: string, time: string, amount: nat, timeout: nat)
    requires AllDigits(date) && |date| == 8 && AllDigits(time) && |time| == 6
    requires amount < 0x1_0000_0000 && timeout <= 9999
    ensures var r := Parse(CmdDeduct(date, time, amount, timeout).value);
      && r.Parsed? && |r.status| == 3
      && [r.respCode] + r.status[..2] == [0xEF, 0x01, 0x03]
      && DeductFields([r.status[2]] + r.body, date, time, amount, timeout)
  {
    var data := DeductData(date, time, amount, timeout);
    DeductDataRoundTrip(date, time, amount, timeout);
    CommandRoundTrip(0x03, data);
    assert [data[0]] + data[1..] == data;
  }

  lemma CommandPayload(cmd: Byte, data: seq<Byte>)
    requires data != []
    ensures var payload := [0xEF, 0x01, cmd] + data;
      payload[0] == 0xEF && payload[1..4] == [0x01, cmd, data[0]] && payload[4..] == data[1..]
  {
  }

  lemma CommandRoundTrip(cmd: Byte, data: seq<Byte>)
    requires 1 <= |data| < 65533
    ensures Parse(BuildFrame(cmd, data)) == Parsed(0xEF, [0x01, cmd, data[0]], data[1..])
  {
    var payload := [0xEF, 0x01, cmd] + data;
    var field := LengthField(|payload|);
    ParseFramed(field, payload, Xor(field + payload), []);
    assert Frame(payload) + [] == Frame(payload);
    CommandPayload(cmd, data);
  }

  datatype Deduct =
    | BodyTooShort
    | Prepaid(cardType: Byte, mid: seq<Byte>, tid: seq<Byte>, clock: seq<Byte>, card: seq<Byte>,
              deducted: nat, remaining: nat, counter: nat)
    | Qr(mid: seq<Byte>, tid: seq<Byte>, clock: seq<Byte>, qrType: Byte, deducted: nat,
         order: seq<Byte>, trx: seq<Byte>, rfu: seq<Byte>)

  /** The deduct response body; card type 9 is a QR payment with its own layout. */
  function ParseDeduct(body: seq<Byte>): Deduct {
    if |body| < 1 then BodyTooShort
    else if body[0] == 0x09 then
      if |body| < 84 then BodyTooShort
      else
        var rfuLength: nat := body[83];
        var rfuEnd := 84 + rfuLength;
        Qr(body[1..9], body[9..13], body[13..20], body[20], FromBigEndian(body[21..25]),
           body[25..47], body[47..83], if rfuEnd <= |body| then body[84..rfuEnd] else body[84..])
    else if |body| < 40 then BodyTooShort
    else
      Prepaid(body[0], body[1..9], body[9..13], body[13..20], body[20..28],
              FromBigEndian(body[28..32]), FromBigEndian(body[32..36]), FromBigEndian(body[36..40]))
  }

  /** The layout of a prepaid response, field by field, with the card log at the end. */
  function PrepaidBody(p: Deduct, log: seq<Byte>): seq<Byte>
    requires p.Prepaid? && p.deducted < 0x1_0000_0000 && p.remaining < 0x1_0000_0000
          && p.counter < 0x1_0000_0000
  {
    [p.cardType] + p.mid + p.tid + p.clock + p.card
    + Amount(p.deducted) + Amount(p.remaining) + Amount(p.counter) + log
  }

  /** Every prepaid response that follows the layout is read back field by field. */
  lemma PrepaidRoundTrip(p: Deduct, log: seq<Byte>)
    requires p.Prepaid? && p.cardType != 0x09
    requires |p.mid| == 8 && |p.tid| == 4 && |p.clock| == 7 && |p.card| == 8
    requires p.deducted < 0x1_0000_0000 && p.remaining < 0x1_0000_0000
          && p.counter < 0x1_0000_0000
    ensures ParseDeduct(PrepaidBody(p, log)) == p
  {
    var body := PrepaidBody(p, log);
    AmountRoundTrip(p.deducted);
    AmountRoundTrip(p.remaining);
    AmountRoundTrip(p.counter);
    assert body[1..9] == p.mid && body[9..13] == p.tid && body[13..20] == p.clock;
    assert body[20..28] == p.card && body[28..32] == Amount(p.deducted);
    assert body[32..36] == Amount(p.remaining) && body[36..40] == Amount(p.counter);
  }

  function QrBody(q: Deduct): seq<Byte>
    requires q.Qr? && q.deducted < 0x1_0000_0000 && |q.rfu| < 256
  {
    [0x09 as Byte] + q.mid + q.tid + q.clock + [q.qrType] + Amount(q.deducted)
    + q.order + q.trx + [|q.rfu|] + q.rfu
  }

  lemma QrRoundTrip(q: Deduct, trailing: seq<Byte>)
    requires q.Qr? && q.deducted < 0x1_0000_0000 && |q.rfu| < 256
    requires |q.mid| == 8 && |q.tid| == 4 && |q.clock| == 7 && |q.order| == 22 && |q.trx| == 36
    ensures ParseDeduct(QrBody(q) + trailing) == q
  {
    var body := QrBody(q) + trailing;
    AmountRoundTrip(q.deducted);
    assert body[1..9] == q.mid && body[9..13] == q.tid && body[13..20] == q.clock;
    assert body[20] == q.qrType && body[21..25] == Amount(q.deducted);
    assert body[25..47] == q.order && body[47..83] == q.trx;
    assert body[83] == |q.rfu| && body[84..84 + |q.rfu|] == q.rfu;
  }

  /** Bodies that end before their layout does are refused; only the last field of a QR response may be
      cut short. */
  lemma ShortBodies(body: seq<Byte>)
    ensures ParseDeduct(body).BodyTooShort? <==> |body| < if body != [] && body[0] == 9 then 84 else 40
    ensures ParseDeduct(body).Qr? <==> |body| >= 84 && body[0] == 9
    ensures ParseDeduct(body).Qr? && 84 + body[83] as int > |body| ==> ParseDeduct(body).rfu == body[84..]
  {
  }

  /** Digits and amounts on the wire go from the most significant to the least. */
  lemma WireOrder()
    ensures Amount(0x01020304) == [1, 2, 3, 4]
    ensures ToBcd("1234") == [0x12, 0x34] && ToBcd("123") == [0x01, 0x23]
    ensures TimeoutField(130) == [0x01, 0x30]
  {
    assert "1234"[2..] == "34" && "0123"[2..] == "23" && "0" + "123" == "0123";
    assert Pack("34") == [0x34] && Pack("23") == [0x23];
    assert Decimal(130) == Decimal(13) + "0" && Decimal(13) == Decimal(1) + "3";
  }
}
