/** Serial numbers and MAC addresses: how they are made, written and looked up. */
module Identity {

  type Byte = x: int | 0 <= x < 256

  function ToByte(x: int): Byte {
    x % 256
  }

  // ---------------------------------------------------------------------------
  // Rendering

  function Digit(d: nat): char
    requires d < 16
  {
    "0123456789abcdef"[d]
  }

  lemma DigitInjective(d: nat, e: nat)
    requires d < 16 && e < 16 && Digit(d) == Digit(e)
    ensures d == e
  {
  }

  function HexByte(b: Byte): string {
    [Digit(b / 16), Digit(b % 16)]
  }

  lemma HexByteInjective(b: Byte, c: Byte)
    requires HexByte(b) == HexByte(c)
    ensures b == c
  {
    assert HexByte(b)[0] == HexByte(c)[0] && HexByte(b)[1] == HexByte(c)[1];
    DigitInjective(b / 16, c / 16);
    DigitInjective(b % 16, c % 16);
  }

  function Hex(bytes: seq<Byte>): (s: string)
    ensures |s| == 2 * |bytes|
  {
    if bytes == [] then "" else Hex(bytes[..|bytes| - 1]) + HexByte(bytes[|bytes| - 1])
  }

  lemma {:induction false} HexInjective(a: seq<Byte>, b: seq<Byte>)
    requires Hex(a) == Hex(b)
    ensures a == b
  {
    assert |a| == |b|;
    if a != [] {
      var x, y := a[..|a| - 1], b[..|b| - 1];
      assert Hex(a)[..|Hex(x)|] == Hex(x) && Hex(b)[..|Hex(y)|] == Hex(y);
      assert Hex(a)[|Hex(x)|..] == HexByte(a[|a| - 1]) && Hex(b)[|Hex(y)|..] == HexByte(b[|b| - 1]);
      HexInjective(x, y);
      HexByteInjective(a[|a| - 1], b[|b| - 1]);
      assert a == x + [a[|a| - 1]] && b == y + [b[|b| - 1]];
    }
  }

  /** common.OnuSnToString. */
  method OnuSnToString(vendorId: string, vendorSpecific: seq<Byte>) returns (s: string)
    ensures s == vendorId + Hex(vendorSpecific)
  {
    s := vendorId;
    for i := 0 to |vendorSpecific|
      invariant s == vendorId + Hex(vendorSpecific[..i])
    {
      assert vendorSpecific[..i + 1][..i] == vendorSpecific[..i];
      s := s + [Digit(vendorSpecific[i] / 16)] + [Digit(vendorSpecific[i] % 16)];
    }
    assert vendorSpecific[..|vendorSpecific|] == vendorSpecific;
  }

  /** HardwareAddr.String: the hexadecimal bytes separated by colons. */
  function MacString(mac: seq<Byte>): string {
    if mac == [] then ""
    else if |mac| == 1 then HexByte(mac[0])
    else HexByte(mac[0]) + ":" + MacString(mac[1..])
  }

  lemma {:induction false} MacLength(mac: seq<Byte>)
    ensures |MacString(mac)| == if mac == [] then 0 else 3 * |mac| - 1
  {
    if |mac| > 1 {
      MacLength(mac[1..]);
    }
  }

  lemma {:induction false} MacStringInjective(a: seq<Byte>, b: seq<Byte>)
    requires MacString(a) == MacString(b)
    ensures a == b
  {
    MacLength(a);
    MacLength(b);
    assert |a| == |b|;
    if a != [] {
      assert MacString(a)[..2] == HexByte(a[0]) && MacString(b)[..2] == HexByte(b[0]);
      HexByteInjective(a[0], b[0]);
      if |a| > 1 {
        assert MacString(a)[3..] == MacString(a[1..]) && MacString(b)[3..] == MacString(b[1..]);
        MacStringInjective(a[1..], b[1..]);
      }
      assert a == [a[0]] + a[1..] && b == [b[0]] + b[1..];
    }
  }

  // ---------------------------------------------------------------------------
  // The identities given out at creation

  /** The vendor specific part of NewSN. */
  function NewSN(oltId: int, intfId: nat, onuId: nat): seq<Byte> {
    [0, ToByte(oltId), ToByte(intfId), ToByte(onuId)]
  }

  /** ONU j of PON i is created with the id j + 1. */
  function SnAt(oltId: int, i: nat, j: nat): seq<Byte> {
    NewSN(oltId, i, j + 1)
  }

  function SnString(oltId: int, i: nat, j: nat): string {
    "BBSM" + Hex(SnAt(oltId, i, j))
  }

  function MacAt(oltId: int, i: nat, j: nat, u: nat, k: nat): seq<Byte> {
    [0x2e, ToByte(oltId), ToByte(i), ToByte(j + 1), ToByte(u), ToByte(k)]
  }

  // Reading an identity back ----------------------------------------------------

  function HexValue(c: char): nat {
    if '0' <= c <= '9' then c as nat - '0' as nat else if 'a' <= c <= 'f' then c as nat - 'a' as nat + 10 else 16
  }

  /** The byte written in two digits at a position of a string. */
  function ByteAt(s: string, k: nat): nat
    requires k + 1 < |s|
  {
    HexValue(s[k]) * 16 + HexValue(s[k + 1])
  }

  lemma DigitValue(d: nat)
    requires d < 16
    ensures HexValue(Digit(d)) == d
  {
  }

  lemma ByteReadsBack(s: string, k: nat, b: Byte)
    requires k + 1 < |s| && s[k..k + 2] == HexByte(b)
    ensures ByteAt(s, k) == b
  {
    assert s[k] == s[k..k + 2][0] && s[k + 1] == s[k..k + 2][1];
    DigitValue(b / 16);
    DigitValue(b % 16);
  }

  lemma HexOfFour(a: Byte, b: Byte, c: Byte, d: Byte)
    ensures Hex([a, b, c, d]) == HexByte(a) + HexByte(b) + HexByte(c) + HexByte(d)
  {
    assert [a, b, c, d][..3] == [a, b, c] && [a, b, c][..2] == [a, b] && [a, b][..1] == [a] && [a][..0] == [];
    assert Hex([a]) == HexByte(a);
    assert Hex([a, b]) == Hex([a]) + HexByte(b);
    assert Hex([a, b, c]) == Hex([a, b]) + HexByte(c);
  }

  /** A serial number tells the OLT, the PON and the ONU, each modulo 256 and in this order. */
  lemma SerialReadsBack(oltId: int, i: nat, j: nat)
    ensures var s := SnString(oltId, i, j);
            && |s| == 12 && s[..4] == "BBSM" && ByteAt(s, 4) == 0
            && ByteAt(s, 6) == oltId % 256 && ByteAt(s, 8) == i % 256 && ByteAt(s, 10) == (j + 1) % 256
  {
    var s := SnString(oltId, i, j);
    var a, b, c: Byte := oltId % 256, i % 256, (j + 1) % 256;
    HexOfFour(0, a, b, c);
    assert s == "BBSM" + HexByte(0) + HexByte(a) + HexByte(b) + HexByte(c);
    ByteReadsBack(s, 4, 0);
    ByteReadsBack(s, 6, a);
    ByteReadsBack(s, 8, b);
    ByteReadsBack(s, 10, c);
  }

  /** The hardware address of a service tells OLT, PON, ONU, UNI and service in this order. */
  lemma MacReadsBack(oltId: int, i: nat, j: nat, u: nat, k: nat)
    ensures var s := MacString(MacAt(oltId, i, j, u, k));
            && |s| == 17 && ByteAt(s, 0) == 0x2e && ByteAt(s, 3) == oltId % 256 && ByteAt(s, 6) == i % 256
            && ByteAt(s, 9) == (j + 1) % 256 && ByteAt(s, 12) == u % 256 && ByteAt(s, 15) == k % 256
            && forall n | 0 <= n < 5 :: s[3 * n + 2] == ':'
  {
    var mac := MacAt(oltId, i, j, u, k);
    MacLength(mac);
    MacDigits(mac, 0);
    MacDigits(mac, 1);
    MacDigits(mac, 2);
    MacDigits(mac, 3);
    MacDigits(mac, 4);
    MacDigits(mac, 5);
    forall n: nat | n < 5
      ensures MacString(mac)[3 * n + 2] == ':'
    {
      MacColon(mac, n);
    }
    var s := MacString(mac);
    ByteReadsBack(s, 0, mac[0]);
    ByteReadsBack(s, 3, mac[1]);
    ByteReadsBack(s, 6, mac[2]);
    ByteReadsBack(s, 9, mac[3]);
    ByteReadsBack(s, 12, mac[4]);
    ByteReadsBack(s, 15, mac[5]);
  }

  lemma {:induction false} MacDigits(mac: seq<Byte>, n: nat)
    requires n < |mac|
    ensures |MacString(mac)| == 3 * |mac| - 1 && MacString(mac)[3 * n..3 * n + 2] == HexByte(mac[n])
  {
    MacLength(mac);
    if n > 0 {
      MacDigits(mac[1..], n - 1);
      var s, t := MacString(mac), MacString(mac[1..]);
      assert s == HexByte(mac[0]) + ":" + t;
      assert s[3 * n..3 * n + 2] == t[3 * (n - 1)..3 * (n - 1) + 2];
    } else {
      assert MacString(mac)[..2] == HexByte(mac[0]);
    }
  }

  lemma {:induction false} MacColon(mac: seq<Byte>, n: nat)
    requires n + 1 < |mac|
    ensures |MacString(mac)| == 3 * |mac| - 1 && MacString(mac)[3 * n + 2] == ':'
  {
    MacLength(mac);
    if n > 0 {
      MacColon(mac[1..], n - 1);
    }
  }

  ghost predicate SerialsDiffer(oltId: int, pons: nat, onus: nat) {
    forall i: nat, j: nat, i': nat, j': nat |
      i < pons && j < onus && i' < pons && j' < onus && SnString(oltId, i, j) == SnString(oltId, i', j') ::
      i == i' && j == j'
  }

  lemma SnStringInjective(oltId: int, i: nat, j: nat, i': nat, j': nat)
    ensures SnString(oltId, i, j) == SnString(oltId, i', j') <==>
              ToByte(i) == ToByte(i') && ToByte(j + 1) == ToByte(j' + 1)
  {
    var a, b := SnAt(oltId, i, j), SnAt(oltId, i', j');
    if SnString(oltId, i, j) == SnString(oltId, i', j') {
      assert SnString(oltId, i, j)[4..] == Hex(a) && SnString(oltId, i', j')[4..] == Hex(b);
      HexInjective(a, b);
      assert a[2] == b[2] && a[3] == b[3];
    }
  }

  /** Serial numbers identify the ONUs of an OLT exactly when there are at most 256 PONs and 256 ONUs on each. */
  lemma SerialsDifferIff(oltId: int, pons: nat, onus: nat)
    requires pons > 0 && onus > 0
    ensures SerialsDiffer(oltId, pons, onus) <==> pons <= 256 && onus <= 256
  {
    hide SnString;
    SnStringInjective(oltId, 0, 0, 256, 0);
    SnStringInjective(oltId, 0, 0, 0, 256);
    if pons <= 256 && onus <= 256 {
      SmallSerialsDiffer(oltId, pons, onus);
    }
  }

  lemma SmallSerialsDiffer(oltId: int, pons: nat, onus: nat)
    requires pons <= 256 && onus <= 256
    ensures SerialsDiffer(oltId, pons, onus)
  {
    hide SnString;
    forall i: nat, j: nat, i': nat, j': nat |
      i < pons && j < onus && i' < pons && j' < onus && SnString(oltId, i, j) == SnString(oltId, i', j')
      ensures i == i' && j == j'
    {
      SnStringInjective(oltId, i, j, i', j');
    }
  }

  ghost predicate MacsDiffer(oltId: int, pons: nat, onus: nat, unis: nat, services: nat) {
    forall i: nat, j: nat, u: nat, k: nat, i': nat, j': nat, u': nat, k': nat |
      i < pons && j < onus && u < unis && k < services &&
      i' < pons && j' < onus && u' < unis && k' < services &&
      MacString(MacAt(oltId, i, j, u, k)) == MacString(MacAt(oltId, i', j', u', k')) ::
      i == i' && j == j' && u == u' && k == k'
  }

  lemma MacsEqualIff(oltId: int, i: nat, j: nat, u: nat, k: nat, i': nat, j': nat, u': nat, k': nat)
    ensures MacString(MacAt(oltId, i, j, u, k)) == MacString(MacAt(oltId, i', j', u', k')) <==>
              ToByte(i) == ToByte(i') && ToByte(j + 1) == ToByte(j' + 1) &&
              ToByte(u) == ToByte(u') && ToByte(k) == ToByte(k')
  {
    var a, b := MacAt(oltId, i, j, u, k), MacAt(oltId, i', j', u', k');
    if MacString(a) == MacString(b) {
      MacStringInjective(a, b);
      assert a[2] == b[2] && a[3] == b[3] && a[4] == b[4] && a[5] == b[5];
    }
  }

  /** MAC addresses identify the services of an OLT exactly when no count exceeds 256. */
  lemma MacsDifferIff(oltId: int, pons: nat, onus: nat, unis: nat, services: nat)
    requires pons > 0 && onus > 0 && unis > 0 && services > 0
    ensures MacsDiffer(oltId, pons, onus, unis, services) <==>
              pons <= 256 && onus <= 256 && unis <= 256 && services <= 256
  {
    MacsEqualIff(oltId, 0, 0, 0, 0, 256, 0, 0, 0);
    MacsEqualIff(oltId, 0, 0, 0, 0, 0, 256, 0, 0);
    MacsEqualIff(oltId, 0, 0, 0, 0, 0, 0, 256, 0);
    MacsEqualIff(oltId, 0, 0, 0, 0, 0, 0, 0, 256);
    if pons <= 256 && onus <= 256 && unis <= 256 && services <= 256 {
      SmallMacsDiffer(oltId, pons, onus, unis, services);
    }
  }

  lemma SmallBytesDiffer(x: nat, y: nat)
    requires x < 256 && y < 256
    ensures ToByte(x) == ToByte(y) ==> x == y
    ensures ToByte(x + 1) == ToByte(y + 1) ==> x == y
  {
  }

  lemma SmallMacsDiffer(oltId: int, pons: nat, onus: nat, unis: nat, services: nat)
    requires pons <= 256 && onus <= 256 && unis <= 256 && services <= 256
    ensures MacsDiffer(oltId, pons, onus, unis, services)
  {
    hide ToByte;
    hide MacString;
    hide MacAt;
    forall i: nat, j: nat, u: nat, k: nat, i': nat, j': nat, u': nat, k': nat |
      i < pons && j < onus && u < unis && k < services &&
      i' < pons && j' < onus && u' < unis && k' < services &&
      MacString(MacAt(oltId, i, j, u, k)) == MacString(MacAt(oltId, i', j', u', k'))
      ensures i == i' && j == j' && u == u' && k == k'
    {
      MacsEqualIff(oltId, i, j, u, k, i', j', u', k');
      SmallBytesDiffer(i, i');
      SmallBytesDiffer(j, j');
      SmallBytesDiffer(u, u');
      SmallBytesDiffer(k, k');
    }
  }

  // ---------------------------------------------------------------------------
  // The devices that carry them and the look-ups

  class Service {
    const hwAddress: seq<Byte>

    constructor (mac: seq<Byte>)
      ensures hwAddress == mac
    {
      hwAddress := mac;
    }
  }

  class Onu {
    const serialNumber: seq<Byte>
    const unis: seq<seq<Service>>
    var id: nat

    constructor (sn: seq<Byte>, id: nat, unis: seq<seq<Service>>)
      ensures serialNumber == sn && this.id == id && this.unis == unis
    {
      serialNumber, this.id, this.unis := sn, id, unis;
    }

    /** SetID changes nothing that the look-ups below read. */
    method SetID(id: nat)
      modifies this
      ensures this.id == id
    {
      this.id := id;
    }

    /** UniPort.findServiceByMacAddress: the index of the first match, or the number of services. */
    method FindInUni(u: nat, mac: seq<Byte>) returns (k: nat)
      requires u < |unis|
      ensures k <= |unis[u]| && (k < |unis[u]| ==> unis[u][k].hwAddress == mac)
      ensures forall q: nat | q < k :: unis[u][q].hwAddress != mac
    {
      k := 0;
      while k < |unis[u]|
        invariant k <= |unis[u]| && forall q: nat | q < k :: unis[u][q].hwAddress != mac
      {
        if MacString(unis[u][k].hwAddress) == MacString(mac) {
          MacStringInjective(unis[u][k].hwAddress, mac);
          return;
        }
        k := k + 1;
      }
    }

    /** Onu.findServiceByMacAddress. */
    method FindService(mac: seq<Byte>) returns (found: bool, u: nat, k: nat)
      ensures found ==> u < |unis| && k < |unis[u]| && unis[u][k].hwAddress == mac
      ensures !found ==> !Has(mac, |unis|)
    {
      u, k := 0, 0;
      while u < |unis|
        invariant u <= |unis| && !Has(mac, u)
      {
        k := FindInUni(u, mac);
        if k < |unis[u]| {
          return true, u, k;
        }
        u := u + 1;
      }
      found := false;
    }

    ghost predicate Has(mac: seq<Byte>, upTo: nat)
      requires upTo <= |unis|
    {
      exists u: nat, k: nat :: u < upTo && k < |unis[u]| && unis[u][k].hwAddress == mac
    }
  }

  class Olt {
    const oltId: int
    const onus: nat
    const uniPorts: nat
    const services: nat
    const pons: seq<seq<Onu>>

    ghost predicate Created() {
      forall i: nat, j: nat | IsOnu(i, j) ::
        j < onus && OnuCreated(pons[i][j], oltId, i, j, uniPorts, services)
    }

    constructor (oltId: int, pons: seq<seq<Onu>>, onus: nat, uniPorts: nat, services: nat)
      ensures this.pons == pons && this.oltId == oltId
      ensures this.onus == onus && this.uniPorts == uniPorts && this.services == services
    {
      this.oltId, this.pons, this.onus, this.uniPorts, this.services := oltId, pons, onus, uniPorts, services;
    }

    predicate IsOnu(i: nat, j: nat) {
      i < |pons| && j < |pons[i]|
    }

    /**
      FindOnuBySn.  With at most 256 PONs and 256 ONUs on each it finds exactly the ONU created
      with that serial number, whatever ids the ONUs have now.
     */
    method FindOnuBySn(serialNumber: string) returns (found: bool, i: nat, j: nat)
      requires Created()
      ensures found ==> IsOnu(i, j) && SnString(oltId, i, j) == serialNumber
      ensures !found ==> forall p: nat, q: nat | IsOnu(p, q) :: SnString(oltId, p, q) != serialNumber
      ensures |pons| <= 256 && onus <= 256 ==>
                forall p: nat, q: nat | IsOnu(p, q) && SnString(oltId, p, q) == serialNumber ::
                  found && i == p && j == q
    {
      i, j := 0, 0;
      while i < |pons|
        invariant i <= |pons|
        invariant forall p: nat, q: nat | p < i && IsOnu(p, q) :: SnString(oltId, p, q) != serialNumber
      {
        j := 0;
        while j < |pons[i]|
          invariant j <= |pons[i]|
          invariant forall q: nat | q < j :: SnString(oltId, i, q) != serialNumber
        {
          assert IsOnu(i, j);
          var sn := OnuSnToString("BBSM", pons[i][j].serialNumber);
          if sn == serialNumber {
            OnlyOnu(i, j);
            return true, i, j;
          }
          j := j + 1;
        }
        i := i + 1;
      }
      found := false;
    }

    lemma OnlyOnu(i: nat, j: nat)
      requires Created() && IsOnu(i, j)
      ensures |pons| <= 256 && onus <= 256 ==>
                forall p: nat, q: nat | IsOnu(p, q) && SnString(oltId, p, q) == SnString(oltId, i, j) ::
                  i == p && j == q
    {
      hide SnString;
      if |pons| <= 256 && onus <= 256 {
        SmallSerialsDiffer(oltId, |pons|, onus);
      }
    }

    /** PonPort.GetOnuBySn compares only the vendor specific bytes. */
    method GetOnuBySn(i: nat, vendorSpecific: seq<Byte>) returns (j: nat)
      requires Created() && i < |pons|
      ensures j <= |pons[i]| && (j < |pons[i]| ==> SnAt(oltId, i, j) == vendorSpecific)
      ensures j == |pons[i]| ==> forall q: nat | IsOnu(i, q) :: SnAt(oltId, i, q) != vendorSpecific
      ensures onus <= 256 ==> forall q: nat | IsOnu(i, q) && SnAt(oltId, i, q) == vendorSpecific :: j == q
    {
      j := 0;
      while j < |pons[i]|
        invariant j <= |pons[i]|
        invariant forall q: nat | q < j :: SnAt(oltId, i, q) != vendorSpecific
      {
        assert IsOnu(i, j);
        if pons[i][j].serialNumber == vendorSpecific {
          forall q: nat | onus <= 256 && IsOnu(i, q) && SnAt(oltId, i, q) == vendorSpecific
            ensures j == q
          {
            assert SnAt(oltId, i, q)[3] == SnAt(oltId, i, j)[3];
          }
          return;
        }
        j := j + 1;
      }
    }

    /** FindServiceByMacAddress, exact when no count exceeds 256. */
    method FindServiceByMacAddress(mac: seq<Byte>) returns (found: bool, i: nat, j: nat, u: nat, k: nat)
      requires Created()
      ensures found ==> IsOnu(i, j) && u < uniPorts && k < services && MacAt(oltId, i, j, u, k) == mac
      ensures !found ==> forall p: nat, q: nat | IsOnu(p, q) :: !pons[p][q].Has(mac, uniPorts)
      ensures |pons| <= 256 && onus <= 256 && uniPorts <= 256 && services <= 256 ==>
                forall p: nat, q: nat, v: nat, w: nat |
                  IsOnu(p, q) && v < uniPorts && w < services && MacAt(oltId, p, q, v, w) == mac ::
                  found && i == p && j == q && u == v && k == w
    {
      i, j, u, k := 0, 0, 0, 0;
      while i < |pons|
        invariant i <= |pons|
        invariant forall p: nat, q: nat | p < i && IsOnu(p, q) :: !pons[p][q].Has(mac, uniPorts)
      {
        j := 0;
        while j < |pons[i]|
          invariant j <= |pons[i]|
          invariant forall q: nat | q < j :: !pons[i][q].Has(mac, uniPorts)
        {
          assert IsOnu(i, j);
          found, u, k := pons[i][j].FindService(mac);
          if found {
            OnlyService(i, j, u, k);
            return;
          }
          j := j + 1;
        }
        i := i + 1;
      }
      found := false;
      HeldByOnu(mac);
    }

    lemma OnlyService(i: nat, j: nat, u: nat, k: nat)
      requires Created() && IsOnu(i, j) && u < uniPorts && k < services
      ensures |pons| <= 256 && onus <= 256 && uniPorts <= 256 && services <= 256 ==>
                forall p: nat, q: nat, v: nat, w: nat |
                  IsOnu(p, q) && v < uniPorts && w < services && MacAt(oltId, p, q, v, w) == MacAt(oltId, i, j, u, k) ::
                  i == p && j == q && u == v && k == w
    {
      if |pons| <= 256 && onus <= 256 && uniPorts <= 256 && services <= 256 {
        SmallMacsDiffer(oltId, |pons|, onus, uniPorts, services);
      }
    }

    lemma HeldByOnu(mac: seq<Byte>)
      requires Created()
      ensures forall p: nat, q: nat, v: nat, w: nat |
                IsOnu(p, q) && v < uniPorts && w < services && MacAt(oltId, p, q, v, w) == mac ::
                pons[p][q].Has(mac, uniPorts)
    {
      forall p: nat, q: nat, v: nat, w: nat |
        IsOnu(p, q) && v < uniPorts && w < services && MacAt(oltId, p, q, v, w) == mac
        ensures pons[p][q].Has(mac, uniPorts)
      {
        assert UniCreated(pons[p][q].unis[v], oltId, p, q, v, services);
        assert pons[p][q].unis[v][w].hwAddress == mac;
      }
    }
  }

  ghost predicate UniCreated(uni: seq<Service>, oltId: int, i: nat, j: nat, u: nat, services: nat) {
    |uni| == services && forall k: nat | k < |uni| :: uni[k].hwAddress == MacAt(oltId, i, j, u, k)
  }

  ghost predicate OnuCreated(onu: Onu, oltId: int, i: nat, j: nat, uniPorts: nat, services: nat) {
    && onu.serialNumber == SnAt(oltId, i, j)
    && |onu.unis| == uniPorts
    && forall u: nat | u < |onu.unis| :: UniCreated(onu.unis[u], oltId, i, j, u, services)
  }

  /** The creation loops: serial numbers and MAC addresses are fixed here, from the initial ids. */
  method CreateOlt(oltId: int, numPon: nat, numOnu: nat, uniPorts: nat, services: nat) returns (olt: Olt)
    ensures olt.Created() && olt.oltId == oltId && |olt.pons| == numPon && olt.onus == numOnu
    ensures olt.uniPorts == uniPorts && olt.services == services
    ensures forall i: nat | i < numPon :: |olt.pons[i]| == numOnu
  {
    var pons: seq<seq<Onu>> := [];
    for i := 0 to numPon
      invariant |pons| == i && forall p: nat | p < i :: |pons[p]| == numOnu
      invariant forall p: nat, q: nat | p < i && q < numOnu :: OnuCreated(pons[p][q], oltId, p, q, uniPorts, services)
    {
      var onus: seq<Onu> := [];
      for j := 0 to numOnu
        invariant |onus| == j
        invariant forall q: nat | q < j :: OnuCreated(onus[q], oltId, i, q, uniPorts, services)
      {
        var onu := CreateOnu(oltId, i, j, uniPorts, services);
        onus := onus + [onu];
      }
      pons := pons + [onus];
    }
    olt := new Olt(oltId, pons, numOnu, uniPorts, services);
  }

  method CreateOnu(oltId: int, i: nat, j: nat, uniPorts: nat, services: nat) returns (onu: Onu)
    ensures OnuCreated(onu, oltId, i, j, uniPorts, services) && onu.id == j + 1
  {
    var unis: seq<seq<Service>> := [];
    for u := 0 to uniPorts
      invariant |unis| == u && forall v: nat | v < u :: UniCreated(unis[v], oltId, i, j, v, services)
    {
      var uni: seq<Service> := [];
      for k := 0 to services
        invariant |uni| == k && forall w: nat | w < k :: uni[w].hwAddress == MacAt(oltId, i, j, u, w)
      {
        var service := new Service([0x2e, ToByte(oltId), ToByte(i), ToByte(j + 1), ToByte(u), ToByte(k)]);
        uni := uni + [service];
      }
      unis := unis + [uni];
    }
    onu := new Onu(NewSN(oltId, i, j + 1), j + 1, unis);
  }
}
