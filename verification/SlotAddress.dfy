/** network/types.go: the addresses, MAC and device name computed from a slot ID. */
module SlotAddress {
  import opened Rendering

  datatype Slot = Slot(id: int, tapName: string, guestIp: string, hostIp: string, guestMac: string)

  /** `&` with 0xFF after an arithmetic right shift is a floor division followed by a
      Euclidean remainder, for negative numbers too. */
  function Octet3(id: int): nat { id * 4 / 256 % 256 }

  function Octet4(id: int): nat { id * 4 % 256 }

  function MacHigh(id: int): (b: nat)
    ensures b < 256
  {
    id / 256 % 256
  }

  function MacLow(id: int): (b: nat)
    ensures b < 256
  {
    id % 256
  }

  function NewSlot(id: int): Slot {
    Slot(
      id,
      "gitvm" + DecimalInt(id),
      "10.0." + DecimalInt(Octet3(id)) + "." + DecimalInt(Octet4(id) + 2),
      "10.0." + DecimalInt(Octet3(id)) + "." + DecimalInt(Octet4(id) + 1),
      "AA:FC:00:00:" + HexByte(MacHigh(id)) + ":" + HexByte(MacLow(id)))
  }

  /** A 32-bit IPv4 address in dotted-quad text. */
  function Ipv4Text(address: nat): string
    requires address < 0x1_0000_0000
  {
    DottedQuad(address / 0x100_0000, address / 0x1_0000 % 256, address / 256 % 256, address % 256)
  }

  /** The network address of the /30 block of a slot: four addresses per slot in 10.0.0.0/16. */
  function BlockBase(id: int): nat {
    0x0A00_0000 + 4 * (id % 16384)
  }

  lemma Ipv4TextInjective(a: nat, b: nat)
    requires a < 0x1_0000_0000 && b < 0x1_0000_0000
    ensures Ipv4Text(a) == Ipv4Text(b) <==> a == b
  {
    DottedQuadInjective(a / 0x100_0000, a / 0x1_0000 % 256, a / 256 % 256, a % 256,
                        b / 0x100_0000, b / 0x1_0000 % 256, b / 256 % 256, b % 256);
    Octets(a);
    Octets(b);
  }

  lemma Octets(a: nat)
    ensures a == a / 0x100_0000 * 0x100_0000 + a / 0x1_0000 % 256 * 0x1_0000 + a / 256 % 256 * 256 + a % 256
  {
  }

  /** The two rendered addresses are the two usable ones (second and third) of the slot's own
      aligned /30 block (prefix notation of section 3.1 of RFC 4632). */
  lemma SlotUsesItsBlock(id: int)
    ensures BlockBase(id) % 4 == 0 && BlockBase(id) / 0x1_0000 == 0x0A00
    ensures NewSlot(id).hostIp == Ipv4Text(BlockBase(id) + 1)
    ensures NewSlot(id).guestIp == Ipv4Text(BlockBase(id) + 2)
  {
    hide Octet3, Octet4, MacHigh, MacLow, Ipv4Text, DecimalInt, HexByte;
    BlockOctets(id % 16384, 1);
    BlockText(id, 1);
    BlockText(id, 2);
  }

  lemma BlockText(id: int, j: nat)
    requires 1 <= j <= 2
    ensures Ipv4Text(BlockBase(id) + j) == "10.0." + DecimalInt(Octet3(id)) + "." + DecimalInt(Octet4(id) + j)
  {
    hide Octet3, Octet4;
    var a := BlockBase(id) + j;
    LowSixteenBits(id);
    BlockOctets(id % 16384, j);
    assert Decimal(10) == "10" by { assert Decimal(10) == Decimal(1) + [Digit(0)]; }
    var c, d := Decimal(a / 256 % 256), Decimal(a % 256);
    assert "10" + "." + ("0" + "." + (c + "." + d)) == "10.0." + c + "." + d;
  }

  lemma BlockOctets(k: nat, j: nat)
    requires k < 16384 && 1 <= j <= 2
    ensures var a := 0x0A00_0000 + 4 * k + j;
      && (a - j) % 4 == 0 && (a - j) / 0x1_0000 == 0x0A00
      && a / 0x100_0000 == 10 && a / 0x1_0000 % 256 == 0
      && a / 256 % 256 == 4 * k / 256 && a % 256 == 4 * k % 256 + j
  {
    var a, e, f := 0x0A00_0000 + 4 * k + j, k / 64, k % 64;
    assert 4 * k == 256 * e + 4 * f;
    Split(4 * k, e, 4 * f);
    Split(a, 0xA_0000 + e, 4 * f + j);
    assert a / 0x1_0000 == 0x0A00 && a / 0x100_0000 == 10;
  }

  lemma Split(a: nat, q: nat, r: nat)
    requires a == 256 * q + r && r < 256
    ensures a / 256 == q && a % 256 == r
  {
  }

  /** Only the low 14 bits of the ID reach the address octets. */
  lemma LowSixteenBits(id: int)
    ensures Octet3(id) == 4 * (id % 16384) / 256 && Octet4(id) == 4 * (id % 16384) % 256
  {
    var q, k := id / 16384, id % 16384;
    var e, f := 4 * k / 256, 4 * k % 256;
    assert id * 4 == 256 * (256 * q + e) + f;
    assert id * 4 / 256 == 256 * q + e;
  }

  /** A number below 256 in decimal, without a leading zero. */
  predicate ReadsAs(text: string, value: int) {
    && |text| > 0 && (forall i :: 0 <= i < |text| ==> IsDigit(text[i]))
    && (value > 0 ==> text[0] != '0') && ParseDecimal(text) == value && 0 <= value < 256
  }

  /** Read back, the last two fields of the host's and the guest's address are the slot's offset plus 1 and plus 2. */
  lemma AddressesRead(id: int)
    ensures exists c, d, high, low ::
      && NewSlot(id).hostIp == "10.0." + c + "." + d && ReadsAs(c, high) && ReadsAs(d, low)
      && 256 * high + low == 4 * (id % 16384) + 1
    ensures exists c, d, high, low ::
      && NewSlot(id).guestIp == "10.0." + c + "." + d && ReadsAs(c, high) && ReadsAs(d, low)
      && 256 * high + low == 4 * (id % 16384) + 2
  {
    hide Octet3, Octet4, MacHigh, MacLow, HexByte;
    FieldsRead(id, 1);
    FieldsRead(id, 2);
    assert NewSlot(id).hostIp == "10.0." + Decimal(Octet3(id)) + "." + Decimal(Octet4(id) + 1);
    assert NewSlot(id).guestIp == "10.0." + Decimal(Octet3(id)) + "." + Decimal(Octet4(id) + 2);
  }

  lemma FieldsRead(id: int, j: nat)
    requires 1 <= j <= 2
    ensures ReadsAs(Decimal(Octet3(id)), Octet3(id)) && ReadsAs(Decimal(Octet4(id) + j), Octet4(id) + j)
    ensures 256 * Octet3(id) + (Octet4(id) + j) == 4 * (id % 16384) + j
  {
    hide Decimal, ParseDecimal;
    LowSixteenBits(id);
    BlockOctets(id % 16384, j);
    DecimalRoundTrip(Octet3(id));
    DecimalRoundTrip(Octet4(id) + j);
  }

  /** Read back, the MAC ends in the low 16 bits of the ID, high byte first, and the device name in the ID. */
  lemma NamesRead(id: int)
    ensures var m := NewSlot(id).guestMac;
      && |m| == 17 && m[..12] == "AA:FC:00:00:" && m[14] == ':'
      && (forall i :: i in [12, 13, 15, 16] ==> IsHexDigit(m[i]))
      && 4096 * HexValue(m[12]) + 256 * HexValue(m[13]) + 16 * HexValue(m[15]) + HexValue(m[16]) == id % 65536
    ensures var t := NewSlot(id).tapName;
      |t| > 5 && t[..5] == "gitvm" && (id >= 0 ==> ParseDecimal(t[5..]) == id) && (id > 0 ==> t[5] != '0')
  {
    hide MacHigh, MacLow, Octet3, Octet4, HexByte, Decimal, ParseDecimal;
    var h, l := HexByte(MacHigh(id)), HexByte(MacLow(id));
    HexByteRoundTrip(MacHigh(id));
    HexByteRoundTrip(MacLow(id));
    MacBytes(id);
    var m := NewSlot(id).guestMac;
    assert m[12] == h[0] && m[13] == h[1] && m[15] == l[0] && m[16] == l[1];
    DecimalRoundTrip(if id < 0 then -id else id);
    assert NewSlot(id).tapName[5..] == DecimalInt(id);
  }

  /** Address texts repeat exactly with period 16384, and no host text is a guest text. */
  lemma AddressesInjective(i: int, j: int)
    ensures NewSlot(i).hostIp == NewSlot(j).hostIp <==> i % 16384 == j % 16384
    ensures NewSlot(i).guestIp == NewSlot(j).guestIp <==> i % 16384 == j % 16384
    ensures NewSlot(i).hostIp != NewSlot(j).guestIp
  {
    hide NewSlot, Ipv4Text;
    SlotUsesItsBlock(i);
    SlotUsesItsBlock(j);
    Ipv4TextInjective(BlockBase(i) + 1, BlockBase(j) + 1);
    Ipv4TextInjective(BlockBase(i) + 2, BlockBase(j) + 2);
    Ipv4TextInjective(BlockBase(i) + 1, BlockBase(j) + 2);
  }

  /** Two slots have either the same /30 block or no address in common. */
  lemma BlocksDisjoint(i: int, j: int, a: int)
    requires BlockBase(i) <= a < BlockBase(i) + 4 && BlockBase(j) <= a < BlockBase(j) + 4
    ensures i % 16384 == j % 16384
  {
    assert BlockBase(i) / 4 == a / 4 == BlockBase(j) / 4;
  }

  /** MAC texts repeat exactly with period 65536; device names never repeat. */
  lemma NamesInjective(i: int, j: int)
    ensures NewSlot(i).guestMac == NewSlot(j).guestMac <==> i % 65536 == j % 65536
    ensures NewSlot(i).tapName == NewSlot(j).tapName <==> i == j
  {
    hide MacHigh, MacLow, Octet3, Octet4, HexByte;
    MacSlices(HexByte(MacHigh(i)), HexByte(MacLow(i)));
    MacSlices(HexByte(MacHigh(j)), HexByte(MacLow(j)));
    HexByteInjective(MacHigh(i), MacHigh(j));
    HexByteInjective(MacLow(i), MacLow(j));
    MacBytes(i);
    MacBytes(j);
    var s, t := NewSlot(i).tapName, NewSlot(j).tapName;
    assert s[5..] == DecimalInt(i) && t[5..] == DecimalInt(j);
    DecimalIntInjective(i, j);
  }

  lemma EverySlotHasDevice(id: int)
    ensures NewSlot(id).tapName != "" && NewSlot(id).id == id
  {
    hide Octet3, Octet4, MacHigh, MacLow, HexByte, DecimalInt;
  }

  lemma MacBytes(i: int)
    ensures i % 65536 == MacHigh(i) * 256 + MacLow(i)
  {
  }

  lemma MacSlices(h: string, l: string)
    requires |h| == |l| == 2
    ensures var m := "AA:FC:00:00:" + h + ":" + l; |m| == 17 && m[12..14] == h && m[15..17] == l
  {
  }
}
