/**
 rtw_chset_set_spt_chs_ie of rtw_chset.c: the Supported Channels element lists the enabled channels as
 (first channel, number of channels) pairs (section 9.4.2.18 of IEEE Std 802.11-2016).
 */
module SupportedChannels {
  import opened Basics

  const WLAN_EID_SUPPORTED_CHANNELS: Byte := 36

  datatype ChInfo = ChInfo(num: Byte, disabled: bool)
  datatype Run = Run(first: Byte, count: Byte)

  // The enabled channels among the first n.
  function Enabled(chs: seq<ChInfo>, n: nat): (r: seq<int>)
    requires n <= |chs|
    ensures |r| <= n
  {
    if n == 0 then []
    else Enabled(chs, n - 1) + if chs[n - 1].disabled then [] else [chs[n - 1].num as int]
  }

  function Channels(first: int, count: nat): seq<int> {
    seq(count, i => first + i)
  }

  // The channels that a list of runs stands for.
  function Expand(runs: seq<Run>): seq<int> {
    if runs == [] then []
    else
      var n := |runs| - 1;
      Expand(runs[..n]) + Channels(runs[n].first, runs[n].count)
  }

  // No run is empty, and none could have been joined with the next.
  predicate Maximal(runs: seq<Run>) {
    && (forall i :: 0 <= i < |runs| ==> runs[i].count >= 1)
    && (forall i, j :: 0 <= i < |runs| && 0 <= j < |runs| && j == i + 1 ==>
          runs[i].first + runs[i].count != runs[j].first)
  }

  // The body of an element with n pairs as a receiver reads it.
  function Decode(body: seq<Byte>, n: nat): seq<Run>
    requires |body| == 2 * n
  {
    seq(n, i requires 0 <= i < n => Run(body[2 * i], body[2 * i + 1]))
  }

  // What a receiver checks: id, length and a body of n maximal runs that expands to the given channels.
  predicate IsElement(elem: seq<Byte>, n: nat, channels: seq<int>) {
    && |elem| == 2 + 2 * n
    && elem[0] == WLAN_EID_SUPPORTED_CHANNELS && elem[1] == (2 * n) % 256
    && Maximal(Decode(elem[2..], n)) && Expand(Decode(elem[2..], n)) == channels
  }

  // The channels to list are those that are not disabled.
  lemma {:induction false} EnabledIs(chs: seq<ChInfo>, n: nat, x: int)
    requires n <= |chs|
    ensures x in Enabled(chs, n) <==> exists i :: 0 <= i < n && chs[i].num == x && !chs[i].disabled
  {
    if n > 0 { EnabledIs(chs, n - 1, x); }
  }

  predicate RunHas(r: Run, x: int) {
    r.first as int <= x < r.first as int + r.count as int
  }

  lemma {:induction false} ExpandHas(runs: seq<Run>, x: int)
    ensures x in Expand(runs) <==> exists i :: 0 <= i < |runs| && RunHas(runs[i], x)
  {
    if runs != [] {
      var n := |runs| - 1;
      ExpandHas(runs[..n], x);
      var last := Channels(runs[n].first, runs[n].count);
      assert RunHas(runs[n], x) ==> last[x - runs[n].first as int] == x;
      assert forall i :: 0 <= i < n ==> runs[..n][i] == runs[i];
    }
  }

  // The i-th pair of octets behind the header covers the channel.
  predicate PairHas(elem: seq<Byte>, i: nat, x: int)
    requires 3 + 2 * i < |elem|
  {
    var first, count := elem[2 + 2 * i] as int, elem[3 + 2 * i] as int;
    first <= x < first + count
  }

  /** On the octets: the element has id 36, and a channel is among those listed exactly if some pair of octets behind
      the header starts at or below it and reaches it. */
  lemma ListedIff(elem: seq<Byte>, n: nat, channels: seq<int>, x: int)
    requires IsElement(elem, n, channels)
    ensures elem[0] == 36
    ensures x in channels <==> exists i :: 0 <= i < n && PairHas(elem, i, x)
  {
    var runs := Decode(elem[2..], n);
    ExpandHas(runs, x);
    forall i | 0 <= i < n
      ensures PairHas(elem, i, x) <==> RunHas(runs[i], x)
    {
      assert runs[i] == Run(elem[2 + 2 * i], elem[3 + 2 * i]);
    }
  }

  method SetSptChsIe(chs: seq<ChInfo>, buf: array<Byte>, pos: nat, len: nat)
    returns (cont: nat, newLen: nat, ghost n: nat)
    requires forall i :: 0 <= i < |chs| ==> chs[i].num != 0
    requires pos + 2 + 2 * |Enabled(chs, |chs|)| <= buf.Length
    modifies buf
    ensures newLen == len + (cont - pos)
    ensures Enabled(chs, |chs|) == [] ==> cont == pos
    ensures Enabled(chs, |chs|) != [] ==>
      n > 0 && pos < cont <= buf.Length && IsElement(buf[pos..cont], n, Enabled(chs, |chs|))
    ensures forall j :: 0 <= j < pos ==> buf[j] == old(buf[j])
  {
    var i, fch: int, lch: int := 0, 0, 0;
    cont, n := pos + 2, 0;
    ghost var all := Enabled(chs, |chs|);
    while i < |chs|
      invariant i <= |chs| && pos + 2 <= cont <= buf.Length
      invariant Printed(buf[pos + 2..cont], n, fch, lch, Enabled(chs, i))
      invariant forall j :: 0 <= j < pos ==> buf[j] == old(buf[j])
    {
      EnabledFits(chs, i + 1);
      cont, fch, lch, n := Visit(buf, pos, cont, fch, lch, chs[i], n, Enabled(chs, i));
      i := i + 1;
    }
    cont, n := Finish(buf, pos, cont, fch, lch, n, all);
    newLen := len + (cont - pos);
  }

  // One channel of the set, of which `channels` are the enabled ones so far.
  method Visit(buf: array<Byte>, pos: nat, cont: nat, fch: int, lch: int, chinfo: ChInfo,
               ghost n: nat, ghost channels: seq<int>)
    returns (cont': nat, fch': int, lch': int, ghost m: nat)
    requires pos + 2 <= cont <= buf.Length && chinfo.num > 0 && Printed(buf[pos + 2..cont], n, fch, lch, channels)
    requires !chinfo.disabled ==> pos + 2 + 2 * (|channels| + 1) <= buf.Length
    modifies buf
    ensures pos + 2 <= cont' <= buf.Length
    ensures Printed(buf[pos + 2..cont'], m, fch', lch', channels + if chinfo.disabled then [] else [chinfo.num as int])
    ensures forall j :: 0 <= j < pos ==> buf[j] == old(buf[j])
  {
    cont', fch', lch', m := cont, fch, lch, n;
    if chinfo.disabled {
      assert channels + [] == channels;
      return;
    }
    cont', fch', lch', m := AddChannel(buf, pos, cont, fch, lch, chinfo.num, n, channels);
  }

  // An enabled channel starts, extends or ends the open run.
  method AddChannel(buf: array<Byte>, pos: nat, cont: nat, fch: int, lch: int, ch: Byte,
                    ghost n: nat, ghost channels: seq<int>)
    returns (cont': nat, fch': int, lch': int, ghost m: nat)
    requires pos + 2 <= cont <= buf.Length && ch > 0 && Printed(buf[pos + 2..cont], n, fch, lch, channels)
    requires pos + 2 + 2 * (|channels| + 1) <= buf.Length
    modifies buf
    ensures pos + 2 <= cont' <= buf.Length && Printed(buf[pos + 2..cont'], m, fch', lch', channels + [ch as int])
    ensures forall j :: 0 <= j < pos ==> buf[j] == old(buf[j])
  {
    ghost var body := buf[pos + 2..cont];
    cont', fch', lch', m := cont, fch, ch, n;
    if fch == 0 {
      StartRun(body, n, channels, ch);
      fch' := ch;
    } else if lch + 1 != ch {
      CloseRun(body, n, fch, lch, channels, ch);
      cont' := PutRun(buf, pos, cont, fch, lch - fch + 1);
      fch', m := ch, n + 1;
    } else {
      ExtendRun(body, n, fch, lch, channels);
    }
  }

  // The last run and the header.
  method Finish(buf: array<Byte>, pos: nat, cont: nat, fch: int, lch: int, ghost n: nat, ghost channels: seq<int>)
    returns (cont': nat, ghost m: nat)
    requires pos + 2 <= cont <= buf.Length && Printed(buf[pos + 2..cont], n, fch, lch, channels)
    requires pos + 2 + 2 * |channels| <= buf.Length
    modifies buf
    ensures channels == [] ==> cont' == pos
    ensures channels != [] ==>
      m > 0 && pos < cont' <= buf.Length && IsElement(buf[pos..cont'], m, channels)
    ensures forall j :: 0 <= j < pos ==> buf[j] == old(buf[j])
  {
    cont', m := PutLast(buf, pos, cont, fch, lch, n, channels);
    if cont' > pos + 2 {
      HeaderedIsElement(buf[pos + 2..cont'], m, channels);
      PutHeader(buf, pos, cont');
    } else {
      cont' := pos;
    }
  }

  // The run that is still open, if any.
  method PutLast(buf: array<Byte>, pos: nat, cont: nat, fch: int, lch: int, ghost n: nat, ghost channels: seq<int>)
    returns (cont': nat, ghost m: nat)
    requires pos + 2 <= cont <= buf.Length && Printed(buf[pos + 2..cont], n, fch, lch, channels)
    requires pos + 2 + 2 * |channels| <= buf.Length
    modifies buf
    ensures pos + 2 <= cont' <= buf.Length && (cont' == pos + 2 <==> channels == []) && cont' == pos + 2 + 2 * m
    ensures Maximal(Decode(buf[pos + 2..cont'], m)) && Expand(Decode(buf[pos + 2..cont'], m)) == channels
    ensures forall j :: 0 <= j < pos ==> buf[j] == old(buf[j])
  {
    cont', m := cont, n;
    if fch != 0 {
      LastRun(buf[pos + 2..cont], n, fch, lch, channels);
      cont' := PutRun(buf, pos, cont, fch, lch - fch + 1);
      m := n + 1;
    }
  }

  lemma HeaderedIsElement(body: seq<Byte>, n: nat, channels: seq<int>)
    requires |body| == 2 * n && Maximal(Decode(body, n)) && Expand(Decode(body, n)) == channels
    ensures IsElement([WLAN_EID_SUPPORTED_CHANNELS, ((2 * n) % 256) as Byte] + body, n, channels)
  {
  }

  // *cont = fch; *(cont + 1) = lch - fch + 1; cont += 2
  method PutRun(buf: array<Byte>, pos: nat, cont: nat, first: Byte, count: Byte) returns (next: nat)
    requires pos + 2 <= cont && cont + 2 <= buf.Length
    modifies buf
    ensures next == cont + 2 && buf[pos + 2..next] == old(buf[pos + 2..cont]) + [first, count]
    ensures forall j :: 0 <= j < pos ==> buf[j] == old(buf[j])
  {
    buf[cont], buf[cont + 1] := first, count;
    next := cont + 2;
  }

  // The n runs in `body` and the open run fch..lch stand for the given channels, and no two could be joined.
  predicate Printed(body: seq<Byte>, n: nat, fch: int, lch: int, channels: seq<int>) {
    && |body| == 2 * n
    && var runs := Decode(body, n);
    && Maximal(runs) && |channels| >= n + (if fch == 0 then 0 else 1)
    && if fch == 0 then lch == 0 && n == 0 && channels == []
       else
         && 0 < fch <= lch < 256
         && (runs != [] ==> LastEnd(runs) != fch)
         && Expand(runs) + Channels(fch, lch - fch + 1) == channels
  }

  lemma StartRun(body: seq<Byte>, n: nat, channels: seq<int>, ch: Byte)
    requires Printed(body, n, 0, 0, channels) && ch > 0
    ensures Printed(body, n, ch, ch, channels + [ch as int])
  {
  }

  lemma ExtendRun(body: seq<Byte>, n: nat, fch: int, lch: int, channels: seq<int>)
    requires fch > 0 && lch < 255 && Printed(body, n, fch, lch, channels)
    ensures Printed(body, n, fch, lch + 1, channels + [lch + 1])
  {
  }

  lemma LastRun(body: seq<Byte>, n: nat, fch: int, lch: int, channels: seq<int>)
    requires fch != 0 && Printed(body, n, fch, lch, channels)
    ensures var more := Decode(body + [fch as Byte, (lch - fch + 1) as Byte], n + 1);
      Maximal(more) && Expand(more) == channels && LastEnd(more) == lch + 1
  {
    var runs, run := Decode(body, n), Run(fch, lch - fch + 1);
    assert Decode(body + [fch as Byte, (lch - fch + 1) as Byte], n + 1) == runs + [run];
    assert (runs + [run])[..|runs|] == runs;
  }

  lemma CloseRun(body: seq<Byte>, n: nat, fch: int, lch: int, channels: seq<int>, ch: Byte)
    requires fch != 0 && ch > 0 && ch != lch + 1 && Printed(body, n, fch, lch, channels)
    ensures Printed(body + [fch as Byte, (lch - fch + 1) as Byte], n + 1, ch, ch, channels + [ch as int])
  {
    LastRun(body, n, fch, lch, channels);
    assert Channels(ch, 1) == [ch as int];
  }

  method PutHeader(buf: array<Byte>, pos: nat, cont: nat)
    requires pos + 2 <= cont <= buf.Length
    modifies buf
    ensures buf[pos..cont] ==
      [WLAN_EID_SUPPORTED_CHANNELS, ((cont - pos - 2) % 256) as Byte] + old(buf[pos + 2..cont])
    ensures forall j :: 0 <= j < pos ==> buf[j] == old(buf[j])
  {
    buf[pos] := WLAN_EID_SUPPORTED_CHANNELS;
    buf[pos + 1] := (cont - pos - 2) % 256;
  }

  function LastEnd(runs: seq<Run>): int
    requires runs != []
  {
    runs[|runs| - 1].first + runs[|runs| - 1].count
  }

  lemma {:induction false} EnabledFits(chs: seq<ChInfo>, i: nat)
    requires i <= |chs|
    ensures |Enabled(chs, i)| <= |Enabled(chs, |chs|)|
    decreases |chs| - i
  {
    if i < |chs| { EnabledFits(chs, i + 1); }
  }

  /** The element is canonical: the enabled channels have only one decomposition into maximal runs. */
  lemma {:induction false} MaximalRunsUnique(a: seq<Run>, b: seq<Run>)
    requires Maximal(a) && Maximal(b) && Expand(a) == Expand(b)
    ensures a == b
  {
    if a != [] && b != [] {
      LastRunAgrees(a, b);
      FrontsAgree(a, b);
      MaximalFront(a);
      MaximalFront(b);
      MaximalRunsUnique(a[..|a| - 1], b[..|b| - 1]);
      assert a == a[..|a| - 1] + [a[|a| - 1]] && b == b[..|b| - 1] + [b[|b| - 1]];
    } else if a != [] {
      LastChannel(a);
    } else if b != [] {
      LastChannel(b);
    }
  }

  lemma MaximalFront(a: seq<Run>)
    requires a != [] && Maximal(a)
    ensures Maximal(a[..|a| - 1])
  {
  }

  lemma FrontsAgree(a: seq<Run>, b: seq<Run>)
    requires a != [] && b != [] && Expand(a) == Expand(b) && a[|a| - 1] == b[|b| - 1]
    ensures Expand(a[..|a| - 1]) == Expand(b[..|b| - 1])
  {
    var x := a[|a| - 1];
    SameFront(Expand(a[..|a| - 1]), Expand(b[..|b| - 1]), Channels(x.first, x.count));
  }

  lemma SameFront(x: seq<int>, y: seq<int>, z: seq<int>)
    requires x + z == y + z
    ensures x == y
  {
    assert |x| == |y|;
    assert x == (x + z)[..|x|] && y == (y + z)[..|y|];
  }

  // The last channel is the last of the last run, and the run goes back as far as the numbers do.
  lemma LastRunAgrees(a: seq<Run>, b: seq<Run>)
    requires Maximal(a) && Maximal(b) && Expand(a) == Expand(b) && a != [] && b != []
    ensures a[|a| - 1] == b[|b| - 1]
  {
    var x, y := a[|a| - 1], b[|b| - 1];
    var all := Expand(a);
    assert all[|all| - 1] == x.first + x.count - 1 by { LastChannel(a); }
    assert all[|all| - 1] == y.first + y.count - 1 by { LastChannel(b); }
    if x.count < y.count { RunStops(a, b); } else if y.count < x.count { RunStops(b, a); }
  }

  lemma LastChannel(a: seq<Run>)
    requires Maximal(a) && a != []
    ensures var x := a[|a| - 1]; var all := Expand(a);
      |all| >= x.count && all[|all| - 1] == x.first + x.count - 1
  {
  }

  lemma RunStops(a: seq<Run>, b: seq<Run>)
    requires Maximal(a) && Maximal(b) && a != [] && b != []
    requires a[|a| - 1].count < b[|b| - 1].count
    requires a[|a| - 1].first + a[|a| - 1].count == b[|b| - 1].first + b[|b| - 1].count
    ensures Expand(a) != Expand(b)
  {
    var x, y := a[|a| - 1], b[|b| - 1];
    var m, n := |a| - 1, |b| - 1;
    var ea, eb := Expand(a[..m]), Expand(b[..n]);
    // in b the channel before x.first is x.first - 1; in a it is not, or there is none
    if |Expand(a)| == |Expand(b)| {
      var p := |ea| - 1;
      assert Expand(b)[|eb| + (y.count - x.count - 1)] == x.first - 1;
      assert |ea| == |eb| + (y.count - x.count);
      assert m > 0;
      LastChannel(a[..m]);
      assert a[..m][m - 1] == a[m - 1];
      assert Expand(a)[p] == a[m - 1].first + a[m - 1].count - 1;
    }
  }
}
