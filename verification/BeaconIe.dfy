/**
 The element list of a beacon (rtw_ap.c, rtw_ieee80211.c): elements are added to and removed from the
 byte buffer in place.  This module gives the buffer, the meaning of its bytes as a list of elements, and
 the operations; BeaconCsa builds the channel switch announcement on it.
 */
module BeaconIe {
  import opened Basics

  type Data = d: seq<Byte> | |d| < 256 witness []

  datatype Elem = Elem(id: Byte, data: Data)

  const FIXED_IE_LENGTH: nat := 12

  // ----- elements and bytes

  function EncodeOne(e: Elem): (r: seq<Byte>)
    ensures |r| == 2 + |e.data|
  {
    [e.id, |e.data|] + e.data
  }

  function Encode(es: seq<Elem>): seq<Byte> {
    if es == [] then [] else EncodeOne(es[0]) + Encode(es[1..])
  }

  lemma {:induction false} EncodeConcat(a: seq<Elem>, b: seq<Elem>)
    ensures Encode(a + b) == Encode(a) + Encode(b)
  {
    if a == [] {
      assert a + b == b;
    } else {
      EncodeConcat(a[1..], b);
      assert (a + b)[1..] == a[1..] + b && (a + b)[0] == a[0];
    }
  }

  // The k-th element sits between the encodings of what precedes and what follows it.
  lemma EncodeAt(es: seq<Elem>, k: nat)
    requires k < |es|
    ensures Encode(es) == Encode(es[..k]) + (EncodeOne(es[k]) + Encode(es[k + 1..]))
  {
    EncodeConcat(es[..k], es[k..]);
    assert es == es[..k] + es[k..];
    assert es[k..][1..] == es[k + 1..];
  }

  lemma EncodeNext(es: seq<Elem>, k: nat)
    requires k < |es|
    ensures Encode(es[..k + 1]) == Encode(es[..k]) + EncodeOne(es[k])
  {
    EncodeConcat(es[..k], [es[k]]);
    assert es[..k + 1] == es[..k] + [es[k]];
    assert [es[k]][1..] == [];
  }

  // ----- what the operations do to the list

  // rtw_get_ie: the first element with the id, or the length of the list.
  function Find(es: seq<Elem>, id: Byte): (k: nat)
    ensures k <= |es| && (forall i :: 0 <= i < k ==> es[i].id != id) && (k < |es| ==> es[k].id == id)
  {
    if es == [] || es[0].id == id then 0 else 1 + Find(es[1..], id)
  }

  predicate Has(es: seq<Elem>, id: Byte) {
    Find(es, id) < |es|
  }

  // Where rtw_add_bcn_ie stops scanning: at the first id that is not smaller.
  function StopAt(es: seq<Elem>, id: Byte): (k: nat)
    ensures k <= |es| && (forall i :: 0 <= i < k ==> es[i].id < id) && (k < |es| ==> es[k].id >= id)
  {
    if es == [] || es[0].id >= id then 0 else 1 + StopAt(es[1..], id)
  }

  predicate Matches(es: seq<Elem>, id: Byte) {
    StopAt(es, id) < |es| && es[StopAt(es, id)].id == id
  }

  // The element that the splice is anchored to: the match, or the one before the insertion point.
  function Anchor(es: seq<Elem>, id: Byte): (k: int)
    ensures -1 <= k < |es|
  {
    if Matches(es, id) then StopAt(es, id) else StopAt(es, id) - 1
  }

  // Without an anchor, or with an empty one, nothing is added and nothing is reported.
  predicate AddWorks(es: seq<Elem>, id: Byte) {
    Anchor(es, id) >= 0 && es[Anchor(es, id)].data != []
  }

  function Added(es: seq<Elem>, id: Byte, data: Data): seq<Elem> {
    var k := StopAt(es, id);
    if !AddWorks(es, id) then es
    else if Matches(es, id) then es[k := Elem(id, data)]
    else Inserted(es, k, Elem(id, data))
  }

  function Removed(es: seq<Elem>, id: Byte): seq<Elem> {
    var k := Find(es, id);
    if k < |es| && es[k].data != [] then es[..k] + es[k + 1..] else es
  }

  // ----- what that means on a sorted list

  predicate Sorted(es: seq<Elem>) {
    forall i, j :: 0 <= i < j < |es| ==> es[i].id <= es[j].id
  }

  lemma SortedStop(es: seq<Elem>, id: Byte)
    requires Sorted(es)
    ensures Matches(es, id) <==> Has(es, id)
    ensures Has(es, id) ==> StopAt(es, id) == Find(es, id)
    ensures !Has(es, id) ==> forall i :: StopAt(es, id) <= i < |es| ==> es[i].id > id
  {
  }

  lemma FindIs(es: seq<Elem>, id: Byte, k: nat)
    requires k <= |es| && (forall i :: 0 <= i < k ==> es[i].id != id) && (k < |es| ==> es[k].id == id)
    ensures Find(es, id) == k
  {
  }

  // All elements but the first with the id.
  function Others(es: seq<Elem>, id: Byte): seq<Elem> {
    var k := Find(es, id);
    if k < |es| then es[..k] + es[k + 1..] else es
  }

  function Inserted(es: seq<Elem>, k: nat, e: Elem): (r: seq<Elem>)
    requires k <= |es|
    ensures |r| == |es| + 1
    ensures forall i :: 0 <= i < |r| ==> r[i] == if i < k then es[i] else if i == k then e else es[i - 1]
  {
    es[..k] + [e] + es[k..]
  }

  lemma InsertedIsSorted(es: seq<Elem>, k: nat, e: Elem)
    requires Sorted(es) && k <= |es|
    requires (forall i :: 0 <= i < k ==> es[i].id < e.id) && (forall i :: k <= i < |es| ==> es[i].id > e.id)
    ensures Sorted(Inserted(es, k, e))
  {
  }

  lemma InsertedIsFound(es: seq<Elem>, k: nat, e: Elem)
    requires k <= |es| && (forall i :: 0 <= i < k ==> es[i].id != e.id)
    ensures var r := Inserted(es, k, e); Find(r, e.id) == k && r[..k] + r[k + 1..] == es
  {
    var r := Inserted(es, k, e);
    FindIs(r, e.id, k);
    assert r[..k] == es[..k] && r[k + 1..] == es[k..];
  }

  lemma ReplacedIsFound(es: seq<Elem>, e: Elem)
    requires Has(es, e.id)
    ensures var k := Find(es, e.id); var r := es[k := e];
      Find(r, e.id) == k && r[..k] == es[..k] && r[k + 1..] == es[k + 1..]
  {
    FindIs(es[Find(es, e.id) := e], e.id, Find(es, e.id));
  }

  // r is es with e in place of the element of its id, or in addition to the elements of es.
  ghost predicate IsUpdate(r: seq<Elem>, es: seq<Elem>, e: Elem) {
    && Sorted(r) && Has(r, e.id) && r[Find(r, e.id)] == e && Others(r, e.id) == Others(es, e.id)
    && |r| == if Has(es, e.id) then |es| else |es| + 1
  }

  lemma ReplacedIsUpdate(es: seq<Elem>, e: Elem)
    requires Sorted(es) && Has(es, e.id)
    ensures IsUpdate(es[Find(es, e.id) := e], es, e)
  {
    ReplacedIsFound(es, e);
  }

  lemma InsertedIsUpdate(es: seq<Elem>, k: nat, e: Elem)
    requires Sorted(es) && k <= |es| && !Has(es, e.id)
    requires (forall i :: 0 <= i < k ==> es[i].id < e.id) && (forall i :: k <= i < |es| ==> es[i].id > e.id)
    ensures IsUpdate(Inserted(es, k, e), es, e)
  {
    InsertedIsSorted(es, k, e);
    InsertedIsFound(es, k, e);
  }

  /** Adding to a sorted list, where it takes effect, replaces the element of that id or inserts one, keeps
      all other elements and their order, and keeps the list sorted. */
  lemma AddKeepsSorted(es: seq<Elem>, id: Byte, data: Data)
    requires Sorted(es) && AddWorks(es, id)
    ensures IsUpdate(Added(es, id, data), es, Elem(id, data))
  {
    SortedStop(es, id);
    if Has(es, id) {
      ReplacedIsUpdate(es, Elem(id, data));
    } else {
      InsertedIsUpdate(es, StopAt(es, id), Elem(id, data));
    }
  }

  /** Adding has no effect at all if and only if there is no element, or an empty one, to anchor it to. */
  lemma AddFailsSilently(es: seq<Elem>, id: Byte, data: Data)
    requires Sorted(es) && (!Has(es, id) || es[Find(es, id)].data != data)
    ensures Added(es, id, data) == es <==> !AddWorks(es, id)
  {
  }

  /** Adding an element that was absent and removing it again restores the list, hence the bytes. */
  lemma AddThenRemove(es: seq<Elem>, id: Byte, data: Data)
    requires Sorted(es) && !Has(es, id) && data != []
    ensures Removed(Added(es, id, data), id) == es
  {
  }

  // ----- the buffer

  class Bss {
    const ies: array<Byte>
    var len: nat
    ghost var elems: seq<Elem>

    ghost predicate Valid()
      reads this, ies
    {
      FIXED_IE_LENGTH <= len <= ies.Length && ies[FIXED_IE_LENGTH..len] == Encode(elems)
    }

    // Where element k starts in the buffer.
    ghost function Pos(k: nat): nat
      requires k <= |elems|
      reads this
    {
      FIXED_IE_LENGTH + |Encode(elems[..k])|
    }

    lemma ElementBytes(k: nat)
      requires Valid() && k < |elems|
      ensures Pos(k) + 2 + |elems[k].data| == Pos(k + 1) <= len
      ensures ies[Pos(k)] == elems[k].id && ies[Pos(k) + 1] == |elems[k].data|
    {
      BodyAt(ies[FIXED_IE_LENGTH..len], elems, k);
      Within(ies, FIXED_IE_LENGTH, len, |Encode(elems[..k])|, |Encode(elems[..k + 1])|);
    }

    lemma PosInside(k: nat)
      requires Valid() && k <= |elems|
      ensures Pos(k) < len <==> k < |elems|
      ensures k == |elems| ==> Pos(k) == len
    {
      if k < |elems| { ElementBytes(k); } else { assert elems[..k] == elems; }
    }

    // rtw_get_ie from the end of the fixed part: the position of the first element with the id, or -1
    method GetIe(id: Byte) returns (p: int, ielen: nat)
      requires Valid()
      ensures p == -1 <==> !Has(elems, id)
      ensures p != -1 ==> p == Pos(Find(elems, id)) && ielen == |elems[Find(elems, id)].data|
    {
      p, ielen := FIXED_IE_LENGTH, 0;
      ghost var k := 0;
      PosInside(k);
      while p < len
        invariant k <= Find(elems, id) && p == Pos(k) && (p < len <==> k < |elems|)
        decreases |elems| - k
      {
        ElementBytes(k);
        PosInside(k + 1);
        if ies[p] == id {
          ielen := ies[p + 1];
          return;
        }
        p := p + 2 + ies[p + 1] as int;
        k := k + 1;
      }
      p := -1;
    }

    // Overwrite `cut` bytes at `at` by `insert`, moving what follows; the remainder is saved first.
    method Splice(at: nat, cut: nat, insert: seq<Byte>)
      requires FIXED_IE_LENGTH <= at && at + cut <= len <= ies.Length && len - cut + |insert| <= ies.Length
      modifies this`len, ies
      ensures len == old(len) - cut + |insert| && len <= ies.Length
      ensures ies[..FIXED_IE_LENGTH] == old(ies[..FIXED_IE_LENGTH])
      ensures ies[FIXED_IE_LENGTH..len] == old(ies[FIXED_IE_LENGTH..at]) + insert + old(ies[at + cut..len])
    {
      var remainder := ies[at + cut..len];
      ghost var front := ies[..at];
      Copy(ies, at, insert);
      ghost var mid := ies[..at + |insert|];
      assert mid == front + insert;
      Copy(ies, at + |insert|, remainder);
      len := at + |insert| + |remainder|;
      assert ies[..len] == front + insert + remainder;
      assert ies[..FIXED_IE_LENGTH] == front[..FIXED_IE_LENGTH];
      assert ies[FIXED_IE_LENGTH..len] == ies[..len][FIXED_IE_LENGTH..];
    }

    // The buffer around elements `from` up to `to`.
    lemma AroundElements(from: nat, to: nat)
      requires Valid() && from <= to <= |elems|
      ensures Pos(from) <= Pos(to) <= len
      ensures ies[FIXED_IE_LENGTH..Pos(from)] == Encode(elems[..from])
      ensures ies[Pos(to)..len] == Encode(elems[to..])
    {
      BodyAround(ies[FIXED_IE_LENGTH..len], elems, from, to);
      Within(ies, FIXED_IE_LENGTH, len, |Encode(elems[..from])|, |Encode(elems[..to])|);
    }

    // The scan of rtw_add_bcn_ie: where it stops, and the anchor
    method Scan(id: Byte) returns (p: int, ielen: nat, bmatch: bool, ghost k: nat)
      requires Valid()
      ensures k == StopAt(elems, id) && bmatch == Matches(elems, id)
      ensures p == -1 <==> Anchor(elems, id) == -1
      ensures p != -1 ==> p == Pos(Anchor(elems, id)) && ielen == |elems[Anchor(elems, id)].data|
    {
      var i := FIXED_IE_LENGTH;
      p, ielen, bmatch, k := -1, 0, false, 0;
      PosInside(k);
      while i < len
        invariant k <= StopAt(elems, id) && i == Pos(k) && (i < len <==> k < |elems|) && !bmatch
        invariant p == -1 <==> k == 0
        invariant k > 0 ==> p == Pos(k - 1) && ielen == |elems[k - 1].data|
        decreases |elems| - k
      {
        ElementBytes(k);
        if ies[i] > id {
          break;
        } else if ies[i] == id {
          p, ielen, bmatch := i, ies[i + 1], true;
          break;
        }
        p, ielen := i, ies[i + 1];
        PosInside(k + 1);
        i := i + 2 + ies[i + 1] as int;
        k := k + 1;
      }
    }

    // rtw_add_bcn_ie
    method AddBcnIe(id: Byte, data: Data)
      requires Valid() && len + 2 + |data| <= ies.Length
      modifies this, ies
      ensures Valid() && elems == Added(old(elems), id, data) && len <= old(len) + 2 + |data|
      ensures ies[..FIXED_IE_LENGTH] == old(ies[..FIXED_IE_LENGTH])
    {
      var p, ielen, bmatch, k := Scan(id);
      if p != -1 && ielen > 0 {
        ElementBytes(Anchor(elems, id));
        if bmatch {
          ReplaceElems(p, ielen + 2, Elem(id, data), k, k + 1);
        } else {
          ReplaceElems(p + ielen + 2, 0, Elem(id, data), k, k);
        }
      }
    }

    // rtw_remove_bcn_ie
    method RemoveBcnIe(id: Byte)
      requires Valid()
      modifies this, ies
      ensures Valid() && elems == Removed(old(elems), id) && len <= old(len)
      ensures ies[..FIXED_IE_LENGTH] == old(ies[..FIXED_IE_LENGTH])
    {
      var p, ielen := GetIe(id);
      if p == -1 || ielen == 0 {
        return;
      }
      ElementBytes(Find(elems, id));
      CutElem(p, ielen + 2, Find(elems, id));
    }

    // The cut, in bytes and in elements.
    method CutElem(at: nat, cut: nat, ghost k: nat)
      requires Valid() && k < |elems| && at == Pos(k) && at + cut == Pos(k + 1)
      modifies this, ies
      ensures Valid() && elems == old(elems)[..k] + old(elems)[k + 1..] && len <= old(len)
      ensures ies[..FIXED_IE_LENGTH] == old(ies[..FIXED_IE_LENGTH])
    {
      AroundElements(k, k + 1);
      ghost var a, c := elems[..k], elems[k + 1..];
      Splice(at, cut, []);
      elems := a + c;
      EncodeConcat(a, c);
    }

    // One octet of an element, at a position obtained from GetIe.
    method Poke(p: nat, ghost k: nat, i: nat, b: Byte)
      requires Valid() && k < |elems| && p == Pos(k) && i < |elems[k].data|
      modifies this`elems, ies
      ensures Valid() && elems == old(elems)[k := Elem(old(elems)[k].id, old(elems)[k].data[i := b])]
      ensures ies[..FIXED_IE_LENGTH] == old(ies[..FIXED_IE_LENGTH])
    {
      ElementBytes(k);
      AroundElements(k, k + 1);
      ghost var e := Elem(elems[k].id, elems[k].data[i := b]);
      ghost var a, one, c := Encode(elems[..k]), EncodeOne(elems[k]), Encode(elems[k + 1..]);
      ghost var body := ies[FIXED_IE_LENGTH..len];
      EncodeAt(elems, k);
      ies[p + 2 + i] := b;
      elems := elems[k := e];
      PokedBytes(a, one, c, e, 2 + i, b);
      assert ies[FIXED_IE_LENGTH..len] == body[|a| + 2 + i := b];
      EncodeAt(elems, k);
    }

    // The splice, in bytes and in elements.
    method ReplaceElems(at: nat, cut: nat, e: Elem, ghost from: nat, ghost to: nat)
      requires Valid() && from <= to <= |elems| && at == Pos(from) && at + cut == Pos(to)
      requires len + 2 + |e.data| <= ies.Length
      modifies this, ies
      ensures Valid() && elems == old(elems)[..from] + [e] + old(elems)[to..] && len <= old(len) + 2 + |e.data|
      ensures ies[..FIXED_IE_LENGTH] == old(ies[..FIXED_IE_LENGTH])
    {
      AroundElements(from, to);
      ghost var a, c := elems[..from], elems[to..];
      Splice(at, cut, [e.id, |e.data|] + e.data);
      elems := a + [e] + c;
      EncodeMiddle(a, e, c);
    }
  }

  lemma EncodeMiddle(a: seq<Elem>, e: Elem, c: seq<Elem>)
    ensures Encode(a + [e] + c) == Encode(a) + EncodeOne(e) + Encode(c)
  {
    EncodeConcat(a + [e], c);
    EncodeConcat(a, [e]);
    assert [e][1..] == [];
    assert Encode([e]) == EncodeOne(e);
  }

  lemma EncodeConcat3(a: seq<Elem>, b: seq<Elem>, c: seq<Elem>)
    ensures Encode(a + (b + c)) == Encode(a) + (Encode(b) + Encode(c)) && Encode(a + b) == Encode(a) + Encode(b)
  {
    EncodeConcat(a, b + c);
    EncodeConcat(b, c);
    EncodeConcat(a, b);
  }

  lemma BodyAround(body: seq<Byte>, es: seq<Elem>, from: nat, to: nat)
    requires body == Encode(es) && from <= to <= |es|
    ensures |Encode(es[..from])| <= |Encode(es[..to])| <= |body|
    ensures body[..|Encode(es[..from])|] == Encode(es[..from])
    ensures body[|Encode(es[..to])|..] == Encode(es[to..])
  {
    var a, b, c, ab := es[..from], es[from..to], es[to..], es[..to];
    assert es == a + (b + c) && ab == a + b;
    EncodeConcat3(a, b, c);
    Thirds(body, Encode(a), Encode(b), Encode(c));
  }

  lemma BodyAt(body: seq<Byte>, es: seq<Elem>, k: nat)
    requires body == Encode(es) && k < |es|
    ensures var x := |Encode(es[..k])|;
      && x + 2 + |es[k].data| == |Encode(es[..k + 1])| <= |body|
      && body[x] == es[k].id && body[x + 1] == |es[k].data|
  {
    EncodeAt(es, k);
    EncodeNext(es, k);
  }

  // Positions in a part of a buffer.
  lemma Within(s: array<Byte>, lo: nat, hi: nat, x: nat, y: nat)
    requires lo <= hi <= s.Length && x <= y <= hi - lo
    ensures s[lo..lo + x] == s[lo..hi][..x] && s[lo + y..hi] == s[lo..hi][y..]
    ensures forall i :: 0 <= i < hi - lo ==> s[lo + i] == s[lo..hi][i]
  {
  }

  lemma PokedBytes(a: seq<Byte>, one: seq<Byte>, c: seq<Byte>, e: Elem, i: nat, b: Byte)
    requires 2 <= i < |one| && one[i := b] == EncodeOne(e)
    ensures (a + (one + c))[|a| + i := b] == a + (EncodeOne(e) + c)
  {
  }

  lemma Thirds(all: seq<Byte>, a: seq<Byte>, b: seq<Byte>, c: seq<Byte>)
    requires all == a + (b + c)
    ensures all[..|a|] == a && all[|a|..|a| + |b|] == b && all[|a| + |b|..] == c
  {
  }
}
