/** Unpadded base64 with the URL-safe alphabet, section 5 of RFC 4648. */
module Base64Url {
  import opened Runs

  type Byte = x: int | 0 <= x < 256

  function Letter(v: nat): char
    requires v < 64
  {
    if v < 26 then 'A' + v as char
    else if v < 52 then 'a' + (v - 26) as char
    else if v < 62 then '0' + (v - 52) as char
    else if v == 62 then '-' else '_'
  }

  function Sextet(c: char): Option<nat> {
    if 'A' <= c <= 'Z' then Some(c as int - 'A' as int)
    else if 'a' <= c <= 'z' then Some(c as int - 'a' as int + 26)
    else if '0' <= c <= '9' then Some(c as int - '0' as int + 52)
    else if c == '-' then Some(62)
    else if c == '_' then Some(63)
    else None
  }

  lemma SextetOfLetter(v: nat)
    requires v < 64
    ensures Sextet(Letter(v)) == Some(v)
  {
  }

  function Encode(bs: seq<Byte>): string {
    if |bs| == 0 then ""
    else if |bs| == 1 then [Letter(bs[0] / 4), Letter(bs[0] % 4 * 16)]
    else if |bs| == 2 then [Letter(bs[0] / 4), Letter(bs[0] % 4 * 16 + bs[1] / 16), Letter(bs[1] % 16 * 4)]
    else
      [Letter(bs[0] / 4), Letter(bs[0] % 4 * 16 + bs[1] / 16), Letter(bs[1] % 16 * 4 + bs[2] / 64), Letter(bs[2] % 64)]
      + Encode(bs[3..])
  }

  predicate UrlSafe(c: char) {
    'A' <= c <= 'Z' || 'a' <= c <= 'z' || '0' <= c <= '9' || c == '-' || c == '_'
  }

  /** Only letters that need no escaping in a URL, four for three bytes, without padding. */
  lemma {:induction false} EncodedIsUrlSafe(bs: seq<Byte>)
    ensures forall i :: 0 <= i < |Encode(bs)| ==> UrlSafe(Encode(bs)[i])
    ensures |Encode(bs)| == (4 * |bs| + 2) / 3
  {
    if |bs| >= 3 {
      EncodedIsUrlSafe(bs[3..]);
      var group := [Letter(bs[0] / 4), Letter(bs[0] % 4 * 16 + bs[1] / 16), Letter(bs[1] % 16 * 4 + bs[2] / 64), Letter(bs[2] % 64)];
      assert Encode(bs) == group + Encode(bs[3..]);
      assert forall i :: 0 <= i < 4 ==> UrlSafe(group[i]);
    }
  }

  predicate AllLetters(s: string) {
    forall i :: 0 <= i < |s| ==> Sextet(s[i]).Some?
  }

  function ValueAt(s: string, i: nat): (v: nat)
    requires i < |s|
    ensures v < 64
  {
    match Sextet(s[i])
    case None => 0
    case Some(v) => v
  }

  function First(s: string): Byte
    requires |s| >= 2
  {
    ValueAt(s, 0) * 4 + ValueAt(s, 1) / 16
  }

  function Second(s: string): Byte
    requires |s| >= 3
  {
    ValueAt(s, 1) % 16 * 16 + ValueAt(s, 2) / 4
  }

  function Third(s: string): Byte
    requires |s| >= 4
  {
    ValueAt(s, 2) % 4 * 64 + ValueAt(s, 3)
  }

  /** The bytes of a text of letters; a single letter at the end is not a byte. */
  function Bytes(s: string): Option<seq<Byte>> {
    if |s| == 0 then Some([])
    else if |s| == 1 then None
    else if |s| == 2 then Some([First(s)])
    else if |s| == 3 then Some([First(s), Second(s)])
    else
      match Bytes(s[4..])
      case None => None
      case Some(rest) => Some([First(s), Second(s), Third(s)] + rest)
  }

  function Decode(s: string): Option<seq<Byte>> {
    if AllLetters(s) then Bytes(s) else None
  }

  lemma FirstBack(b: Byte, low: nat)
    requires low < 16
    ensures b / 4 * 4 + (b % 4 * 16 + low) / 16 == b
  {
  }

  lemma SecondBack(high: nat, b: Byte, low: nat)
    requires low < 4
    ensures (high * 16 + b / 16) % 16 * 16 + (b % 16 * 4 + low) / 4 == b
  {
  }

  lemma ThirdBack(high: nat, b: Byte)
    ensures (high * 4 + b / 64) % 4 * 64 + b % 64 == b
  {
  }

  lemma ValueOfLetter(s: string, i: nat, v: nat)
    requires i < |s| && v < 64 && s[i] == Letter(v)
    ensures Sextet(s[i]).Some? && ValueAt(s, i) == v
  {
    SextetOfLetter(v);
  }

  /** The letters of a full group give back its three bytes. */
  lemma GroupBack(bs: seq<Byte>)
    requires |bs| >= 3
    ensures var s := Encode(bs);
            && |s| >= 4 && s[4..] == Encode(bs[3..]) && (forall i :: 0 <= i < 4 ==> Sextet(s[i]).Some?)
            && First(s) == bs[0] && Second(s) == bs[1] && Third(s) == bs[2]
  {
    var s := Encode(bs);
    ValueOfLetter(s, 0, bs[0] / 4);
    ValueOfLetter(s, 1, bs[0] % 4 * 16 + bs[1] / 16);
    ValueOfLetter(s, 2, bs[1] % 16 * 4 + bs[2] / 64);
    ValueOfLetter(s, 3, bs[2] % 64);
    FirstBack(bs[0], bs[1] / 16);
    SecondBack(bs[0] % 4, bs[1], bs[2] / 64);
    ThirdBack(bs[1] % 16, bs[2]);
  }

  lemma PairBack(b: Byte, c: Byte)
    ensures var s := Encode([b, c]);
            |s| == 3 && (forall i :: 0 <= i < 3 ==> Sextet(s[i]).Some?) && First(s) == b && Second(s) == c
  {
    var s := Encode([b, c]);
    ValueOfLetter(s, 0, b / 4);
    ValueOfLetter(s, 1, b % 4 * 16 + c / 16);
    ValueOfLetter(s, 2, c % 16 * 4);
    FirstBack(b, c / 16);
    SecondBack(b % 4, c, 0);
  }

  lemma SingleBack(b: Byte)
    ensures var s := Encode([b]);
            |s| == 2 && (forall i :: 0 <= i < 2 ==> Sextet(s[i]).Some?) && First(s) == b
  {
    var s := Encode([b]);
    ValueOfLetter(s, 0, b / 4);
    ValueOfLetter(s, 1, b % 4 * 16);
    FirstBack(b, 0);
  }

  lemma {:induction false} BytesOfEncode(bs: seq<Byte>)
    ensures AllLetters(Encode(bs)) && Bytes(Encode(bs)) == Some(bs)
  {
    if |bs| >= 3 {
      BytesOfEncode(bs[3..]);
      GroupBack(bs);
      var s := Encode(bs);
      forall i | 0 <= i < |s| ensures Sextet(s[i]).Some? {
        if i >= 4 {
          assert s[i] == s[4..][i - 4];
        }
      }
      assert bs == [bs[0], bs[1], bs[2]] + bs[3..];
    } else if |bs| == 2 {
      PairBack(bs[0], bs[1]);
      assert bs == [bs[0], bs[1]];
    } else if |bs| == 1 {
      SingleBack(bs[0]);
      assert bs == [bs[0]];
    }
  }

  lemma DecodeEncode(bs: seq<Byte>)
    ensures Decode(Encode(bs)) == Some(bs)
  {
    BytesOfEncode(bs);
  }
}
