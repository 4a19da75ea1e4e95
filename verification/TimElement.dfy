/**
 rtw_set_tim_ie of rtw_ap.c: the Traffic Indication Map element carries only the octets of the traffic
 bitmap between the first and the last non-zero one, and says in its control octet where they start
 (section 9.4.2.6 of IEEE Std 802.11-2016).  Octets are integers below 256; the u8 arithmetic of the
 length octet and of the returned length is written out.
 */
module TimElement {
  import opened Basics

  const WLAN_EID_TIM: Byte := 5

  // Truncation to u8, for the sums that occur here.
  function U8(x: nat): Byte
    requires x < 512
  {
    if x < 256 then x else x - 256
  }

  // Index of the first non-zero octet, or the length if there is none.
  function FirstNonzero(bmp: seq<Byte>): (r: nat)
    ensures r <= |bmp| && (forall i :: 0 <= i < r ==> bmp[i] == 0) && (r < |bmp| ==> bmp[r] != 0)
  {
    if bmp == [] || bmp[0] != 0 then 0 else 1 + FirstNonzero(bmp[1..])
  }

  // Index of the last non-zero octet; octet 0 is not looked at.
  function LastNonzero(bmp: seq<Byte>): (r: nat)
    requires bmp != []
    ensures r < |bmp| && (forall i :: r < i < |bmp| ==> bmp[i] == 0) && (r > 0 ==> bmp[r] != 0)
  {
    var n := |bmp| - 1;
    if n == 0 || bmp[n] != 0 then n else LastNonzero(bmp[..n])
  }

  predicate NotEmpty(bmp: seq<Byte>) {
    FirstNonzero(bmp) < |bmp|
  }

  function Half(x: nat): (h: nat)
    ensures 2 * h <= x <= 2 * h + 1
  {
    x / 2
  }

  // i & 0xFE, for i below 256
  function EvenPart(x: nat): nat {
    2 * Half(x)
  }

  // n1 of the standard: the first non-zero octet, rounded down to an even number.
  function Offset(bmp: seq<Byte>): (r: nat)
    ensures r == 2 * Half(r) && r <= FirstNonzero(bmp) && (bmp != [] ==> r < |bmp|)
  {
    if NotEmpty(bmp) then EvenPart(FirstNonzero(bmp)) else 0
  }

  // BIT0 of octet 0
  function Aid0(bmp: seq<Byte>): (r: int)
    requires bmp != []
    ensures 0 <= r <= 1
  {
    bmp[0] - EvenPart(bmp[0])
  }

  lemma LastAfterFirst(bmp: seq<Byte>)
    requires NotEmpty(bmp)
    ensures FirstNonzero(bmp) <= LastNonzero(bmp)
  {
  }

  function PartialLen(bmp: seq<Byte>): (r: nat)
    requires bmp != []
    ensures 1 <= r && Offset(bmp) + r <= |bmp|
  {
    if NotEmpty(bmp) then LastAfterFirst(bmp); LastNonzero(bmp) - Offset(bmp) + 1 else 1
  }

  // The element as it should be on the air.
  function Tim(dtimCnt: Byte, dtimPeriod: Byte, bmp: seq<Byte>): (r: seq<Byte>)
    requires 1 <= |bmp| <= 255
    ensures |r| == 5 + PartialLen(bmp)
  {
    [WLAN_EID_TIM, U8(3 + PartialLen(bmp)), dtimCnt, dtimPeriod, Aid0(bmp) + Offset(bmp)]
    + bmp[Offset(bmp)..Offset(bmp) + PartialLen(bmp)]
  }

  method SetTimIe(dtimCnt: Byte, dtimPeriod: Byte, bmp: seq<Byte>, ie: array<Byte>) returns (len: Byte)
    requires 1 <= |bmp| <= 255 && ie.Length >= 5 + PartialLen(bmp)
    modifies ie
    ensures ie[..5 + PartialLen(bmp)] == Tim(dtimCnt, dtimPeriod, bmp)
    ensures forall j :: 5 + PartialLen(bmp) <= j < ie.Length ==> ie[j] == old(ie[j])
    ensures len == U8(5 + PartialLen(bmp))
  {
    var n1, bmpLen := Span(bmp);
    ie[0] := WLAN_EID_TIM;
    ie[1] := U8(2 + 1 + bmpLen);
    ie[2] := dtimCnt;
    ie[3] := dtimPeriod;
    ie[4] := Aid0(bmp) + n1;
    Copy(ie, 5, bmp[n1..n1 + bmpLen]);
    len := U8(2 + 2 + 1 + bmpLen);
  }

  // The part of the bitmap to send.
  method Span(bmp: seq<Byte>) returns (n1: nat, bmpLen: nat)
    requires bmp != []
    ensures n1 == Offset(bmp) && bmpLen == PartialLen(bmp)
  {
    n1, bmpLen := 0, 1;
    var notEmpty := BmpNotEmpty(bmp);
    if notEmpty {
      var i := 0;
      while i < |bmp| && bmp[i] == 0
        invariant i <= FirstNonzero(bmp)
      {
        i := i + 1;
      }
      n1 := EvenPart(i);
      i := |bmp| - 1;
      while i > 0 && bmp[i] == 0
        invariant LastNonzero(bmp) <= i < |bmp|
      {
        i := i - 1;
      }
      var n2 := i;
      LastAfterFirst(bmp);
      bmpLen := n2 - n1 + 1;
    }
  }

  // rtw_bmp_not_empty
  method BmpNotEmpty(bmp: seq<Byte>) returns (r: bool)
    ensures r <==> NotEmpty(bmp)
  {
    var i := 0;
    while i < |bmp|
      invariant i <= FirstNonzero(bmp)
      invariant i <= |bmp|
    {
      if bmp[i] != 0 {
        return true;
      }
      i := i + 1;
    }
    return false;
  }

  // ----- the receiver

  datatype Decoded = Decoded(dtimCnt: Byte, dtimPeriod: Byte, aid0: bool, bitmap: seq<Byte>)

  function Zeros(n: nat): seq<Byte> {
    seq(n, i => 0)
  }

  // Reads the length octet, the offset in the control octet and that many octets of partial bitmap, and
  // fills up with zeros to a bitmap of n octets.
  function Decode(elem: seq<Byte>, n: nat): Decoded
    requires |elem| >= 5 && 4 <= elem[1] && 2 + elem[1] as int <= |elem|
    requires EvenPart(elem[4]) + (elem[1] - 3) <= n
  {
    var offset := EvenPart(elem[4]);
    var partial := elem[5..2 + elem[1] as int];
    Decoded(elem[2], elem[3], elem[4] != offset, Zeros(offset) + partial + Zeros(n - offset - |partial|))
  }

  lemma PadsBack(bmp: seq<Byte>)
    requires bmp != []
    ensures var o, p := Offset(bmp), PartialLen(bmp);
      Zeros(o) + bmp[o..o + p] + Zeros(|bmp| - o - p) == bmp
  {
  }

  // The offset and the bit of AID 0 share an octet and do not collide.
  lemma ControlOctet(bmp: seq<Byte>)
    requires 1 <= |bmp| <= 255
    ensures EvenPart(Aid0(bmp) + Offset(bmp)) == Offset(bmp)
  {
  }

  lemma DecodeParts(elem: seq<Byte>, cnt: Byte, period: Byte, ctrl: Byte, partial: seq<Byte>, n: nat)
    requires 1 <= |partial| <= 252 && EvenPart(ctrl) + |partial| <= n
    requires elem == [WLAN_EID_TIM, U8(3 + |partial|), cnt, period, ctrl] + partial
    ensures |elem| == 5 + |partial| && elem[1] == 3 + |partial| && elem[4] == ctrl
    ensures Decode(elem, n) ==
      Decoded(cnt, period, ctrl != EvenPart(ctrl),
          Zeros(EvenPart(ctrl)) + partial + Zeros(n - EvenPart(ctrl) - |partial|))
  {
  }

  lemma TimParts(dtimCnt: Byte, dtimPeriod: Byte, bmp: seq<Byte>, ctrl: Byte, partial: seq<Byte>)
    requires 1 <= |bmp| <= 255 && PartialLen(bmp) <= 252
    requires ctrl == Aid0(bmp) + Offset(bmp) && partial == bmp[Offset(bmp)..Offset(bmp) + PartialLen(bmp)]
    ensures |partial| == PartialLen(bmp)
    ensures Tim(dtimCnt, dtimPeriod, bmp) == [WLAN_EID_TIM, U8(3 + |partial|), dtimCnt, dtimPeriod, ctrl] + partial
  {
  }

  lemma TimDecodes(dtimCnt: Byte, dtimPeriod: Byte, bmp: seq<Byte>, ctrl: Byte, partial: seq<Byte>)
    requires 1 <= |bmp| <= 255 && PartialLen(bmp) <= 252
    requires ctrl == Aid0(bmp) + Offset(bmp) && partial == bmp[Offset(bmp)..Offset(bmp) + PartialLen(bmp)]
    ensures var elem := Tim(dtimCnt, dtimPeriod, bmp);
      && |elem| == 5 + |partial| && elem[1] == 3 + |partial| && elem[4] == ctrl && EvenPart(ctrl) == Offset(bmp)
      && |partial| == PartialLen(bmp)
      && Decode(elem, |bmp|) == Decoded(dtimCnt, dtimPeriod, ctrl != Offset(bmp), bmp)
  {
    TimParts(dtimCnt, dtimPeriod, bmp, ctrl, partial);
    ControlOctet(bmp);
    DecodeParts(Tim(dtimCnt, dtimPeriod, bmp), dtimCnt, dtimPeriod, ctrl, partial, |bmp|);
    PadsBack(bmp);
  }

  lemma GroupBit(bmp: seq<Byte>)
    requires bmp != []
    ensures Aid0(bmp) == 1 <==> bmp[0] % 2 == 1
  {
  }

  /** Decoding the element gives back the whole bitmap and the group-traffic bit, for every bitmap whose
      partial bitmap fits the length octet. */
  lemma TimRoundTrip(dtimCnt: Byte, dtimPeriod: Byte, bmp: seq<Byte>)
    requires 1 <= |bmp| <= 255 && PartialLen(bmp) <= 252
    ensures var elem := Tim(dtimCnt, dtimPeriod, bmp);
      && elem[0] == 5 && |elem| == 2 + elem[1] as int
      && EvenPart(elem[4]) + (elem[1] - 3) <= |bmp|
      && Decode(elem, |bmp|) == Decoded(dtimCnt, dtimPeriod, bmp[0] % 2 == 1, bmp)
  {
    var o := Offset(bmp);
    TimDecodes(dtimCnt, dtimPeriod, bmp, Aid0(bmp) + o, bmp[o..o + PartialLen(bmp)]);
    GroupBit(bmp);
  }

  /** No shorter part of the bitmap would do: every part that starts at an even octet and from which zeros restore the
      bitmap covers the one that is sent. */
  lemma SentIsShortest(bmp: seq<Byte>, o: nat, p: nat)
    requires NotEmpty(bmp) && o % 2 == 0 && o + p <= |bmp|
    requires Zeros(o) + bmp[o..o + p] + Zeros(|bmp| - o - p) == bmp
    ensures o <= Offset(bmp) && Offset(bmp) + PartialLen(bmp) <= o + p
  {
    var whole := Zeros(o) + bmp[o..o + p] + Zeros(|bmp| - o - p);
    var first, last := FirstNonzero(bmp), LastNonzero(bmp);
    assert whole[first] != 0;
    LastAfterFirst(bmp);
    assert last > 0 ==> whole[last] != 0;
  }

  /** For bitmaps of up to 251 octets the returned length is the number of octets written unless the partial
      bitmap is 251 octets long, when the length of 256 wraps to 0: exactly when octet 250 and one of the
      first two octets are non-zero. */
  lemma ReturnedLength(bmp: seq<Byte>)
    requires 1 <= |bmp| <= 251
    ensures U8(5 + PartialLen(bmp)) == 5 + PartialLen(bmp) <==>
      !(|bmp| == 251 && bmp[250] != 0 && (bmp[0] != 0 || bmp[1] != 0))
  {
  }
}
