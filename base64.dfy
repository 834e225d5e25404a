/**
 * The base64 encoding of section 4 of RFC 4648 (alphabet A-Z a-z 0-9 + /,
 * '=' padding), as the speech route applies it to the audio it relays, and a
 * decoder for well-formed input that undoes it.
 */
module Base64 {
  import opened Wrappers

  type sextet = x: int | 0 <= x < 64

  /** Table 1 of RFC 4648: the character for a 6-bit value. */
  function Letter(v: sextet): char
  {
    if v < 26 then ('A' as int + v) as char
    else if v < 52 then ('a' as int + (v - 26)) as char
    else if v < 62 then ('0' as int + (v - 52)) as char
    else if v == 62 then '+'
    else '/'
  }

  /** The 6-bit value of an alphabet character; None for anything else (including '='). */
  function Value(c: char): Option<sextet>
  {
    if 'A' <= c <= 'Z' then Some(c as int - 'A' as int)
    else if 'a' <= c <= 'z' then Some(c as int - 'a' as int + 26)
    else if '0' <= c <= '9' then Some(c as int - '0' as int + 52)
    else if c == '+' then Some(62)
    else if c == '/' then Some(63)
    else None
  }

  predicate InAlphabet(c: char)
  {
    Value(c).Some?
  }

  lemma ValueOfLetter(v: sextet)
    ensures Value(Letter(v)) == Some(v)
  {
  }

  /** Three octets as four characters: 24 bits cut into four 6-bit groups, most significant first. */
  function Quantum(a: byte, b: byte, c: byte): string
  {
    [Letter(a / 4), Letter((a % 4) * 16 + b / 16), Letter((b % 16) * 4 + c / 64), Letter(c % 64)]
  }

  lemma QuantumInAlphabet(a: byte, b: byte, c: byte)
    ensures |Quantum(a, b, c)| == 4
    ensures forall i :: 0 <= i < 4 ==> InAlphabet(Quantum(a, b, c)[i])
  {
    ValueOfLetter(a / 4);
    ValueOfLetter((a % 4) * 16 + b / 16);
    ValueOfLetter((b % 16) * 4 + c / 64);
    ValueOfLetter(c % 64);
  }

  /** Buffer.toString("base64"). */
  function Encode(bs: seq<byte>): (r: string)
    ensures |r| == 4 * ((|bs| + 2) / 3)
    ensures forall i :: 0 <= i < |r| ==> InAlphabet(r[i]) || r[i] == '='
    decreases |bs|
  {
    if |bs| == 0 then ""
    else if |bs| == 1 then [Letter(bs[0] / 4), Letter((bs[0] % 4) * 16), '=', '=']
    else if |bs| == 2 then [Letter(bs[0] / 4), Letter((bs[0] % 4) * 16 + bs[1] / 16), Letter((bs[1] % 16) * 4), '=']
    else
      QuantumInAlphabet(bs[0], bs[1], bs[2]);
      Quantum(bs[0], bs[1], bs[2]) + Encode(bs[3..])
  }

  /** The octets carried by consecutive 6-bit groups: the first, second and third of a quantum. */
  function Join0(w: sextet, x: sextet): byte { (w as int) * 4 + (x as int) / 16 }
  function Join1(x: sextet, y: sextet): byte { ((x as int) % 16) * 16 + (y as int) / 4 }
  function Join2(y: sextet, z: sextet): byte { ((y as int) % 4) * 64 + z as int }

  /** Four alphabet characters as three octets. */
  function DecodeQuantum(q: string): Option<seq<byte>>
    requires |q| == 4
  {
    match (Value(q[0]), Value(q[1]), Value(q[2]), Value(q[3]))
    case (Some(w), Some(x), Some(y), Some(z)) =>
      Some([Join0(w, x), Join1(x, y), Join2(y, z)])
    case _ => None
  }

  /** The last four characters, which may end in one or two '='. */
  function DecodeFinal(q: string): Option<seq<byte>>
    requires |q| == 4
  {
    if q[2] == '=' && q[3] == '=' then
      match (Value(q[0]), Value(q[1]))
      case (Some(w), Some(x)) => Some([Join0(w, x)])
      case _ => None
    else if q[3] == '=' then
      match (Value(q[0]), Value(q[1]), Value(q[2]))
      case (Some(w), Some(x), Some(y)) => Some([Join0(w, x), Join1(x, y)])
      case _ => None
    else DecodeQuantum(q)
  }

  /** Decoding of padded base64; None when the length is not a multiple of 4 or a character is out of place. */
  function Decode(s: string): Option<seq<byte>>
    decreases |s|
  {
    if |s| == 0 then Some([])
    else if |s| < 4 then None
    else if |s| == 4 then DecodeFinal(s)
    else
      match DecodeQuantum(s[..4])
      case None => None
      case Some(head) =>
        match Decode(s[4..])
        case None => None
        case Some(tail) => Some(head + tail)
  }

  /** A value written as hi * 16 + lo with lo < 16 splits back into hi and lo. */
  lemma Split16(hi: int, lo: int)
    requires 0 <= lo < 16
    ensures (hi * 16 + lo) / 16 == hi && (hi * 16 + lo) % 16 == lo
  {
  }

  /** A value written as hi * 4 + lo with lo < 4 splits back into hi and lo. */
  lemma Split4(hi: int, lo: int)
    requires 0 <= lo < 4
    ensures (hi * 4 + lo) / 4 == hi && (hi * 4 + lo) % 4 == lo
  {
  }

  /** The 6-bit groups of three octets, put back together, are those octets. */
  lemma JoinsOfQuantum(a: byte, b: byte, c: byte)
    ensures Join0(a / 4, (a % 4) * 16 + b / 16) == a
    ensures Join1((a % 4) * 16 + b / 16, (b % 16) * 4 + c / 64) == b
    ensures Join2((b % 16) * 4 + c / 64, c % 64) == c
  {
    Split16(a % 4, b / 16);
    Split4(b % 16, c / 64);
  }

  /** The bit arithmetic of one quantum is undone by decoding it. */
  lemma QuantumRoundTrip(a: byte, b: byte, c: byte)
    ensures DecodeQuantum(Quantum(a, b, c)) == Some([a, b, c])
    ensures DecodeFinal(Quantum(a, b, c)) == Some([a, b, c])
  {
    var w, x, y, z := a / 4, (a % 4) * 16 + b / 16, (b % 16) * 4 + c / 64, c % 64;
    ValueOfLetter(w); ValueOfLetter(x); ValueOfLetter(y); ValueOfLetter(z);
    JoinsOfQuantum(a, b, c);
    var q := Quantum(a, b, c);
    assert q[2] != '=' && q[3] != '=';
  }

  /** A final group of one octet: two characters and two '='. */
  lemma DecodeEncodeOne(bs: seq<byte>)
    requires |bs| == 1
    ensures Decode(Encode(bs)) == Some(bs)
  {
    var w, x := bs[0] / 4, (bs[0] % 4) * 16;
    ValueOfLetter(w); ValueOfLetter(x);
    Split16(bs[0] % 4, 0);
    assert Join0(w, x) == bs[0];
    var e := Encode(bs);
    assert e == [Letter(w), Letter(x), '=', '='];
    assert DecodeFinal(e) == Some([bs[0]]);
    assert [bs[0]] == bs;
  }

  /** A final group of two octets: three characters and one '='. */
  lemma DecodeEncodeTwo(bs: seq<byte>)
    requires |bs| == 2
    ensures Decode(Encode(bs)) == Some(bs)
  {
    var w, x, y := bs[0] / 4, (bs[0] % 4) * 16 + bs[1] / 16, (bs[1] % 16) * 4;
    ValueOfLetter(w); ValueOfLetter(x); ValueOfLetter(y);
    Split16(bs[0] % 4, bs[1] / 16);
    Split4(bs[1] % 16, 0);
    assert Letter(y) != '=' by { assert Value('=') == None; }
    assert Join0(w, x) == bs[0] && Join1(x, y) == bs[1];
    var e := Encode(bs);
    assert e == [Letter(w), Letter(x), Letter(y), '='];
    assert DecodeFinal(e) == Some([bs[0], bs[1]]);
    assert [bs[0], bs[1]] == bs;
  }

  /** A final group of three octets: one full quantum. */
  lemma DecodeEncodeThree(bs: seq<byte>)
    requires |bs| == 3
    ensures Decode(Encode(bs)) == Some(bs)
  {
    var q := Quantum(bs[0], bs[1], bs[2]);
    QuantumRoundTrip(bs[0], bs[1], bs[2]);
    assert Encode(bs[3..]) == "";
    assert Encode(bs) == q;
    assert [bs[0], bs[1], bs[2]] == bs;
  }

  /** A full quantum in front of a decodable rest decodes to the quantum's octets followed by the rest's. */
  lemma DecodeCons(q: string, rest: string, head: seq<byte>, tail: seq<byte>)
    requires |q| == 4 && |rest| > 0
    requires DecodeQuantum(q) == Some(head) && Decode(rest) == Some(tail)
    ensures Decode(q + rest) == Some(head + tail)
  {
    assert (q + rest)[..4] == q && (q + rest)[4..] == rest;
  }

  /** Decoding what the route sends gives back exactly the upstream bytes. */
  lemma {:induction false} DecodeEncode(bs: seq<byte>)
    ensures Decode(Encode(bs)) == Some(bs)
    decreases |bs|
  {
    if |bs| == 1 {
      DecodeEncodeOne(bs);
    } else if |bs| == 2 {
      DecodeEncodeTwo(bs);
    } else if |bs| == 3 {
      DecodeEncodeThree(bs);
    } else if |bs| > 3 {
      var q := Quantum(bs[0], bs[1], bs[2]);
      var rest := bs[3..];
      QuantumRoundTrip(bs[0], bs[1], bs[2]);
      DecodeEncode(rest);
      assert Encode(bs) == q + Encode(rest);
      DecodeCons(q, Encode(rest), [bs[0], bs[1], bs[2]], rest);
      assert [bs[0], bs[1], bs[2]] + rest == bs;
    }
  }
}
