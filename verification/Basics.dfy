/** What several modules share: optional values, octets, buffers and the kernel's wrapping clock. */
module Basics {

  datatype Option<+T> = None | Some(value: T)

  type Byte = b: int | 0 <= b < 256

  // _rtw_memcpy
  method Copy(dst: array<Byte>, at: nat, src: seq<Byte>)
    requires at + |src| <= dst.Length
    modifies dst
    ensures dst[..at] == old(dst[..at]) && dst[at..at + |src|] == src
    ensures forall j :: at + |src| <= j < dst.Length ==> dst[j] == old(dst[j])
  {
    for k := 0 to |src|
      invariant dst[..at] == old(dst[..at]) && dst[at..at + k] == src[..k]
      invariant forall j :: at + |src| <= j < dst.Length ==> dst[j] == old(dst[j])
    {
      dst[at + k] := src[k];
    }
  }

  // jiffies are an unsigned long
  const JIFFIES_MOD: nat := 0x1_0000_0000_0000_0000

  // time_after: the difference is negative as a signed long
  predicate TimeAfter(a: int, b: int) {
    (b - a) % JIFFIES_MOD >= JIFFIES_MOD / 2
  }

  // The ticks that the clock makes from one reading to another.
  function Ticks(from: int, to: int): (t: nat)
    ensures t < JIFFIES_MOD && (from + t) % JIFFIES_MOD == to % JIFFIES_MOD
  {
    (to - from) % JIFFIES_MOD
  }

  lemma TicksOf(from: int, d: nat)
    requires d < JIFFIES_MOD
    ensures Ticks(from, (from + d) % JIFFIES_MOD) == d
  {
  }

  // The ticks left from t to a time that lies ahead of an earlier reading.
  lemma TicksLeft(now: int, ticks: nat, t: int)
    requires ticks <= JIFFIES_MOD / 2 && Ticks(now, t) < JIFFIES_MOD / 2
    ensures Ticks(t, (now + ticks) % JIFFIES_MOD) ==
      if Ticks(now, t) <= ticks then ticks - Ticks(now, t) else JIFFIES_MOD + ticks - Ticks(now, t)
  {
    var d := Ticks(now, t);
    assert ((now + ticks) % JIFFIES_MOD - t) % JIFFIES_MOD == (ticks - d) % JIFFIES_MOD;
  }

  // From a time that lies some ticks before a reading back to an earlier one.
  lemma TicksBack(from: int, to: int, ticks: nat)
    requires ticks < JIFFIES_MOD
    ensures Ticks(to - ticks, from) ==
      if Ticks(from, to) <= ticks then ticks - Ticks(from, to) else JIFFIES_MOD + ticks - Ticks(from, to)
  {
    var d := Ticks(from, to);
    assert (from - (to - ticks)) % JIFFIES_MOD == (ticks - d) % JIFFIES_MOD;
  }

  /** A time lies after another exactly if the clock gets from the other to it with at least one tick and at most
      half its range. */
  lemma TimeAfterIs(a: int, b: int)
    ensures TimeAfter(a, b) <==> 0 < Ticks(b, a) <= JIFFIES_MOD / 2
  {
  }

  // A time that lies the ticks ahead of a reading is after t as long as fewer ticks have passed.
  lemma AfterAsLongAs(now: int, ticks: nat, t: int)
    requires ticks <= JIFFIES_MOD / 2 && Ticks(now, t) < JIFFIES_MOD / 2
    ensures TimeAfter((now + ticks) % JIFFIES_MOD, t) <==> Ticks(now, t) < ticks
  {
    var end, d := (now + ticks) % JIFFIES_MOD, Ticks(now, t);
    TimeAfterIs(end, t);
    TicksLeft(now, ticks, t);
    assert Ticks(t, end) == if d <= ticks then ticks - d else JIFFIES_MOD + ticks - d;
  }
}
