/** GenerateMAC: the guest address derived from a VM id, and what it does and does not identify. */
module Mac {
  import opened GoStrings

  function HexDigit(n: bv8): char {
    match n
    case 0 => '0' case 1 => '1' case 2 => '2' case 3 => '3'
    case 4 => '4' case 5 => '5' case 6 => '6' case 7 => '7'
    case 8 => '8' case 9 => '9' case 10 => 'a' case 11 => 'b'
    case 12 => 'c' case 13 => 'd' case 14 => 'e' case _ => 'f'
  }

  /** Go's %02x of one byte. */
  function Hex2(b: bv8): (text: string)
    ensures |text| == 2
  {
    [HexDigit(b >> 4), HexDigit(b & 0xF)]
  }

  /** The i-th derived octet: the XOR of the i-th pair of id bytes, 0 when the pair is incomplete. */
  function Octet(id: Bytes, i: nat): bv8 {
    if i * 2 + 1 < |id| then id[i * 2] ^ id[i * 2 + 1] else 0
  }

  function Octets(id: Bytes): seq<bv8> {
    [Octet(id, 0), Octet(id, 1), Octet(id, 2), Octet(id, 3)]
  }

  // ------------------------------------------------------------ reading an address back

  function HexValue(c: char): Option<bv8> {
    match c
    case '0' => Some(0) case '1' => Some(1) case '2' => Some(2) case '3' => Some(3)
    case '4' => Some(4) case '5' => Some(5) case '6' => Some(6) case '7' => Some(7)
    case '8' => Some(8) case '9' => Some(9)
    case 'a' => Some(10) case 'b' => Some(11) case 'c' => Some(12)
    case 'd' => Some(13) case 'e' => Some(14) case 'f' => Some(15)
    case 'A' => Some(10) case 'B' => Some(11) case 'C' => Some(12)
    case 'D' => Some(13) case 'E' => Some(14) case 'F' => Some(15)
    case _ => None
  }

  /** Reads `hh(:hh)*`; None for any other text. */
  function Decode(text: string): Option<seq<bv8>>
    decreases |text|
  {
    if |text| < 2 then None
    else
      var hi, lo := HexValue(text[0]), HexValue(text[1]);
      if hi.None? || lo.None? then None
      else
        var b := (hi.value << 4) | lo.value;
        if |text| == 2 then Some([b])
        else if text[2] != ':' then None
        else
          var rest := Decode(text[3..]);
          if rest.None? then None else Some([b] + rest.value)
  }

  /** Each octet preceded by a colon. */
  function Octets02x(octets: seq<bv8>): string {
    if octets == [] then "" else [':'] + Hex2(octets[0]) + Octets02x(octets[1..])
  }

  function MacText(id: Bytes): string { "02:FC" + Octets02x(Octets(id)) }

  lemma HexDigitValue(n: bv8)
    requires n < 16
    ensures HexValue(HexDigit(n)) == Some(n)
  {
    if n >= 14 { assert n == 14 || n == 15; }
  }

  lemma DecodePair(hi: char, lo: char, rest: string)
    requires HexValue(hi).Some? && HexValue(lo).Some? && Decode(rest).Some?
    ensures Decode([hi, lo, ':'] + rest) ==
      Some([(HexValue(hi).value << 4) | HexValue(lo).value] + Decode(rest).value)
  {
    assert ([hi, lo, ':'] + rest)[3..] == rest;
  }

  lemma HexPair(b: bv8)
    ensures HexValue(Hex2(b)[0]).Some? && HexValue(Hex2(b)[1]).Some?
    ensures (HexValue(Hex2(b)[0]).value << 4) | HexValue(Hex2(b)[1]).value == b
    ensures Hex2(0) == "00"
  {
    HexDigitValue(b >> 4);
    HexDigitValue(b & 0xF);
    assert ((b >> 4) << 4) | (b & 0xF) == b;
  }

  lemma DecodeLast(h: string)
    requires |h| == 2 && HexValue(h[0]).Some? && HexValue(h[1]).Some?
    ensures Decode(h) == Some([(HexValue(h[0]).value << 4) | HexValue(h[1]).value])
  {
  }

  lemma ColonPair(h: string, rest: string)
    requires |h| == 2
    ensures ([':'] + h + rest)[1..] == h + rest
    ensures rest != [] && rest[0] == ':' ==> h + rest == [h[0], h[1], ':'] + rest[1..]
  {
  }

  /** One octet in front of an already decoded text. */
  lemma DecodeFirst(b: bv8, rest: string)
    requires rest != [] && rest[0] == ':' && Decode(rest[1..]).Some?
    ensures Decode(([':'] + Hex2(b) + rest)[1..]) == Some([b] + Decode(rest[1..]).value)
  {
    var h := Hex2(b);
    HexPair(b);
    ColonPair(h, rest);
    DecodePair(h[0], h[1], rest[1..]);
  }

  lemma DecodeOne(b: bv8)
    ensures Decode(([':'] + Hex2(b) + "")[1..]) == Some([b])
  {
    HexPair(b);
    ColonPair(Hex2(b), "");
    assert Hex2(b) + "" == Hex2(b);
    DecodeLast(Hex2(b));
  }

  lemma {:induction false} DecodeOctets(o: seq<bv8>)
    requires o != []
    ensures Octets02x(o)[0] == ':' && Decode(Octets02x(o)[1..]) == Some(o)
  {
    if |o| == 1 {
      assert o[1..] == [] && [o[0]] == o;
      DecodeOne(o[0]);
    } else {
      DecodeOctets(o[1..]);
      assert [o[0]] + o[1..] == o;
      DecodeFirst(o[0], Octets02x(o[1..]));
    }
  }

  lemma {:induction false} OctetsTextLength(o: seq<bv8>)
    ensures |Octets02x(o)| == 3 * |o|
    ensures o != [] ==> Octets02x(o)[0] == ':'
  {
    if o != [] { OctetsTextLength(o[1..]); }
  }

  lemma FixedOctets()
    ensures HexValue('0') == Some(0) && HexValue('2') == Some(2)
    ensures HexValue('F') == Some(15) && HexValue('C') == Some(12)
    ensures ((0 as bv8) << 4) | 2 == 0x02 && ((15 as bv8) << 4) | 12 == 0xFC
  {
  }

  /** A digit as Go's %x prints it, or the separator. */
  predicate Printed(c: char) {
    '0' <= c <= '9' || 'a' <= c <= 'f' || c == ':'
  }

  lemma {:induction false} OctetsArePrinted(o: seq<bv8>)
    ensures forall k :: 0 <= k < |Octets02x(o)| ==> Printed(Octets02x(o)[k])
  {
    if o != [] {
      DigitsArePrinted(o[0] >> 4);
      DigitsArePrinted(o[0] & 0xF);
      OctetsArePrinted(o[1..]);
    }
  }

  lemma DigitsArePrinted(n: bv8)
    ensures Printed(HexDigit(n))
  {
  }

  /**
   * The text is always six two-digit octets starting 02:FC, in lower case from there on, and reading it
   * back gives the four derived octets.
   */
  lemma DecodeMac(id: Bytes)
    ensures |MacText(id)| == 17
    ensures MacText(id)[..5] == "02:FC"
    ensures forall k :: 5 <= k < 17 ==> var c := MacText(id)[k]; '0' <= c <= '9' || 'a' <= c <= 'f' || c == ':'
    ensures Decode(MacText(id)) == Some([0x02, 0xFC,
      if |id| > 1 then id[0] ^ id[1] else 0, if |id| > 3 then id[2] ^ id[3] else 0,
      if |id| > 5 then id[4] ^ id[5] else 0, if |id| > 7 then id[6] ^ id[7] else 0])
  {
    hide Octets02x, Hex2, Decode, Octet;
    DecodesToOctets(id);
    OctetsArePrinted(Octets(id));
    assert [0x02, 0xFC] + Octets(id) == [0x02, 0xFC, Octet(id, 0), Octet(id, 1), Octet(id, 2), Octet(id, 3)];
    FourOctets(id);
  }

  lemma FourOctets(id: Bytes)
    ensures Octet(id, 0) == if |id| > 1 then id[0] ^ id[1] else 0
    ensures Octet(id, 1) == if |id| > 3 then id[2] ^ id[3] else 0
    ensures Octet(id, 2) == if |id| > 5 then id[4] ^ id[5] else 0
    ensures Octet(id, 3) == if |id| > 7 then id[6] ^ id[7] else 0
  {
  }

  lemma DecodesToOctets(id: Bytes)
    ensures |MacText(id)| == 17 && MacText(id)[..5] == "02:FC"
    ensures Decode(MacText(id)) == Some([0x02, 0xFC] + Octets(id))
  {
    var o := Octets(id);
    var text := Octets02x(o);
    OctetsTextLength(o);
    DecodeOctets(o);
    FixedOctets();
    var tail := text[1..];
    assert text == [':'] + tail;
    DecodePair('F', 'C', tail);
    DecodePair('0', '2', ['F', 'C', ':'] + tail);
    assert MacText(id) == ['0', '2', ':'] + (['F', 'C', ':'] + tail);
    assert [0x02] + ([0xFC] + o) == [0x02, 0xFC] + o;
  }

  /** Two ids share an address exactly when their four pair XORs agree. */
  lemma SameMac(a: Bytes, b: Bytes)
    ensures MacText(a) == MacText(b) <==> Octets(a) == Octets(b)
  {
    DecodesToOctets(a);
    DecodesToOctets(b);
    if MacText(a) == MacText(b) {
      assert ([0x02, 0xFC] + Octets(a))[2..] == Octets(a);
      assert ([0x02, 0xFC] + Octets(b))[2..] == Octets(b);
    }
  }

  /** Only the first eight bytes matter, so ids whose TAP suffixes agree share an address. */
  lemma MacOfSuffix(a: Bytes, b: Bytes)
    requires (if |a| > 8 then a[..8] else a) == (if |b| > 8 then b[..8] else b)
    ensures MacText(a) == MacText(b)
  {
    var s := if |a| > 8 then a[..8] else a;
    forall i | 0 <= i < 4
      ensures Octet(a, i) == Octet(b, i)
    {
      if i * 2 + 1 < |s| {
        assert a[i * 2] == s[i * 2] == b[i * 2];
        assert a[i * 2 + 1] == s[i * 2 + 1] == b[i * 2 + 1];
      }
    }
    assert Octets(a) == Octets(b);
  }

  lemma {:induction false} OctetsAppend(o: seq<bv8>, b: bv8)
    ensures Octets02x(o + [b]) == Octets02x(o) + [':'] + Hex2(b)
  {
    if o == [] {
      assert (o + [b])[1..] == [];
    } else {
      assert (o + [b])[1..] == o[1..] + [b];
      OctetsAppend(o[1..], b);
    }
  }

  /** The text after the loop has appended `i` octets. */
  function Appended(id: Bytes, i: nat): string {
    if i == 0 then "02:FC" else Appended(id, i - 1) + [':'] + Hex2(Octet(id, i - 1))
  }

  lemma {:induction false} AppendedIsPrefix(id: Bytes, i: nat)
    requires i <= 4
    ensures Appended(id, i) == "02:FC" + Octets02x(Octets(id)[..i])
  {
    if i > 0 {
      AppendedIsPrefix(id, i - 1);
      OctetsAppend(Octets(id)[..i - 1], Octet(id, i - 1));
      assert Octets(id)[..i] == Octets(id)[..i - 1] + [Octet(id, i - 1)];
    }
  }

  lemma AppendedAll(id: Bytes)
    ensures Appended(id, 4) == MacText(id)
  {
    AppendedIsPrefix(id, 4);
    assert Octets(id)[..4] == Octets(id);
  }

  lemma AppendedStep(id: Bytes, i: nat)
    ensures i * 2 + 1 < |id| ==> Appended(id, i + 1) == Appended(id, i) + [':'] + Hex2(id[i * 2] ^ id[i * 2 + 1])
    ensures i * 2 + 1 >= |id| ==> Appended(id, i + 1) == Appended(id, i) + [':'] + "00"
  {
    HexPair(0);
  }

  /** Appends one octet at a time to the fixed prefix. */
  method GenerateMAC(vmID: Bytes) returns (mac: string)
    ensures mac == MacText(vmID)
  {
    mac := "02:FC";
    var i := 0;
    while i < 4
      invariant 0 <= i <= 4
      invariant mac == Appended(vmID, i)
    {
      AppendedStep(vmID, i);
      if i * 2 + 1 < |vmID| {
        mac := mac + [':'] + Hex2(vmID[i * 2] ^ vmID[i * 2 + 1]);
      } else {
        mac := mac + [':'] + "00";
      }
      i := i + 1;
    }
    AppendedAll(vmID);
  }
}
