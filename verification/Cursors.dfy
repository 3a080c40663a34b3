/** The page cursor as text: a JSON array of a timestamp and an order number, in base64url. */
module Cursors {
  import opened Runs
  import opened Decimals
  import opened Timestamps
  import Base64Url

  datatype Cursor = Cursor(createdAt: Time, number: int)

  const ZERO_TIME := Time(1, 1, 1, 0, 0, 0, 0)

  /** The cursor before the first page. */
  const START := Cursor(ZERO_TIME, 0)

  // ----- Text and bytes -----

  /** Characters that JSON and base64 take as they are. */
  predicate Plain(s: string) {
    forall i :: 0 <= i < |s| ==> (s[i] as int < 128 && s[i] != '"')
  }

  predicate Ascii(s: string) {
    forall i :: 0 <= i < |s| ==> s[i] as int < 128
  }

  function AsBytes(s: string): seq<Base64Url.Byte> {
    seq(|s|, i requires 0 <= i < |s| => if s[i] as int < 128 then s[i] as int else 63)
  }

  function AsText(bs: seq<Base64Url.Byte>): string {
    seq(|bs|, i requires 0 <= i < |bs| => bs[i] as char)
  }

  lemma TextOfBytes(s: string)
    requires Ascii(s)
    ensures AsText(AsBytes(s)) == s
  {
  }

  // ----- Order numbers -----

  function NumberText(n: int): string {
    if n < 0 then ['-'] + Decimal(0 - n) else Decimal(n)
  }

  predicate IsJsonNatural(s: string) {
    s != "" && AllDigits(s) && (s[0] != '0' || |s| == 1)
  }

  /** A 64-bit integer in JSON. */
  function ParseNumber(s: string): Option<int> {
    if IsJsonNatural(s) then (if Value(s) < 0x8000_0000_0000_0000 then Some(Value(s)) else None)
    else if s != "" && s[0] == '-' && IsJsonNatural(s[1..]) then
      (if Value(s[1..]) <= 0x8000_0000_0000_0000 then Some(0 - Value(s[1..])) else None)
    else None
  }

  lemma {:induction false} NoLeadingZero(n: nat)
    ensures Decimal(n) != "" && (Decimal(n)[0] != '0' || n == 0)
  {
    if n >= 10 {
      NoLeadingZero(n / 10);
    }
  }

  lemma NumberBack(n: int)
    ensures ParseNumber(NumberText(n)) == if -0x8000_0000_0000_0000 <= n < 0x8000_0000_0000_0000 then Some(n) else None
    ensures Plain(NumberText(n))
  {
    var m := if n < 0 then 0 - n else n;
    ValueOfDecimal(m);
    NoLeadingZero(m);
    if n < 0 {
      assert NumberText(n)[1..] == Decimal(m);
      assert !IsDigit(NumberText(n)[0]);
    }
  }

  // ----- The cursor -----

  function Payload(c: Cursor): string {
    ['[', '"'] + Format(c.createdAt) + ['"', ','] + NumberText(c.number) + [']']
  }

  function Encode(c: Cursor): string {
    Base64Url.Encode(AsBytes(Payload(c)))
  }

  function QuoteAt(s: string, from: nat): nat
    requires from <= |s|
    decreases |s| - from
  {
    if from == |s| || s[from] == '"' then from else QuoteAt(s, from + 1)
  }

  /** The two fields of the array. */
  function ParsePayload(s: string): Option<(string, string)> {
    if |s| < 2 || s[0] != '[' || s[1] != '"' then None
    else
      var q := QuoteBound(s);
      if q + 2 < |s| && s[q + 1] == ',' && s[|s| - 1] == ']' then Some((s[2..q], s[q + 2..|s| - 1])) else None
  }

  function QuoteBound(s: string): (q: nat)
    requires |s| >= 2
    ensures 2 <= q <= |s|
  {
    QuoteAtIsBeyond(s, 2);
    QuoteAt(s, 2)
  }

  lemma {:induction false} QuoteAtIsBeyond(s: string, from: nat)
    requires from <= |s|
    ensures from <= QuoteAt(s, from) <= |s|
    decreases |s| - from
  {
    if from < |s| && s[from] != '"' {
      QuoteAtIsBeyond(s, from + 1);
    }
  }

  /** None stands for the invalid-cursor error. */
  function Decode(value: string): Option<Cursor> {
    if value == "" then Some(START)
    else
      match Base64Url.Decode(value)
      case None => None
      case Some(bytes) =>
        match ParsePayload(AsText(bytes))
        case None => None
        case Some((timestamp, number)) =>
          match Parse(timestamp)
          case None => None
          case Some(t) =>
            match ParseNumber(number)
            case None => None
            case Some(n) => if n <= 0 then None else Some(Cursor(t, n))
  }

  // ----- Decoding undoes encoding -----

  lemma PlainDigits(n: nat, width: nat)
    requires n < Power10(width)
    ensures Plain(Digits(n, width))
  {
    ValueOfDigits(n, width);
  }

  lemma PlainField(separator: char, n: nat)
    requires n < 100 && separator as int < 128 && separator != '"'
    ensures Plain(Field(separator, n))
  {
    assert Power10(2) == 100;
    PlainDigits(n, 2);
  }

  lemma PlainFraction(nano: nat)
    requires nano < 1_000_000_000
    ensures Plain(Fraction(nano))
  {
    assert Power10(9) == 1_000_000_000;
    PlainDigits(nano, 9);
    PadTrimmed(Digits(nano, 9));
    var t := TrimZeros(Digits(nano, 9));
    assert forall i :: 0 <= i < |t| ==> t[i] == Digits(nano, 9)[i];
  }

  lemma PlainFormat(t: Time)
    requires IsTime(t)
    ensures Plain(Format(t))
  {
    assert Power10(4) == 10000;
    PlainDigits(t.year, 4);
    PlainField('-', t.month);
    PlainField('-', t.day);
    PlainField('T', t.hour);
    PlainField(':', t.minute);
    PlainField(':', t.second);
    PlainFraction(t.nano);
  }

  lemma {:induction false} QuoteFound(s: string, from: nat, q: nat)
    requires from <= q < |s| && s[q] == '"' && forall i :: from <= i < q ==> s[i] != '"'
    ensures QuoteAt(s, from) == q
    decreases q - from
  {
    if from < q {
      QuoteFound(s, from + 1, q);
    }
  }

  lemma PayloadBack(t: string, n: string)
    requires Plain(t) && Plain(n)
    ensures var s := ['[', '"'] + t + ['"', ','] + n + [']'];
            Ascii(s) && ParsePayload(s) == Some((t, n))
  {
    var s := ['[', '"'] + t + ['"', ','] + n + [']'];
    var q := 2 + |t|;
    assert s[2..q] == t && s[q] == '"' && s[q + 1] == ',' && s[q + 2..|s| - 1] == n;
    assert forall i :: 2 <= i < q ==> s[i] == t[i - 2];
    assert forall i :: q + 2 <= i < |s| - 1 ==> s[i] == n[i - q - 2];
    QuoteFound(s, 2, q);
  }

  /** Every cursor of a positive 64-bit order number comes back; every other one is refused. */
  lemma DecodeEncode(c: Cursor)
    requires IsTime(c.createdAt)
    ensures Encode(c) != ""
    ensures Decode(Encode(c)) == if 0 < c.number < 0x8000_0000_0000_0000 then Some(c) else None
  {
    PlainFormat(c.createdAt);
    NumberBack(c.number);
    PayloadBack(Format(c.createdAt), NumberText(c.number));
    TextOfBytes(Payload(c));
    Base64Url.DecodeEncode(AsBytes(Payload(c)));
    ParseFormat(c.createdAt);
  }
}
