/**
 dhcp_flag_bcast of rtw_br_ext.c: the broadcast flag of a DHCP request is set in place and the UDP
 checksum is patched with the new flags word instead of being recomputed.

 A datagram is the sequence of 16-bit words over which UDP computes its checksum (pseudo header, UDP
 header, payload), in host order; `bcast` is htons(BROADCAST_FLAG) in that order, 0x8000 or 0x0080.
 */
module DhcpChecksum {

  type Word = w: int | 0 <= w < 0x1_0000

  function Sum(words: seq<Word>): nat {
    if words == [] then 0 else words[0] + Sum(words[1..])
  }

  // The carry of a ones-complement addition, added back until none is left.
  function Fold(x: nat): (r: nat)
    ensures r <= 0xFFFF
    ensures x > 0 <==> r > 0
    ensures r % 0xFFFF == x % 0xFFFF
    decreases x
  {
    if x < 0x1_0000 then x
    else
      assert x == 0xFFFF * (x / 0x1_0000) + (x % 0x1_0000 + x / 0x1_0000);
      FoldStep(x, x / 0x1_0000, x % 0x1_0000 + x / 0x1_0000);
      Fold(x % 0x1_0000 + x / 0x1_0000)
  }

  lemma FoldStep(x: nat, q: nat, y: nat)
    requires x == 0xFFFF * q + y
    ensures x % 0xFFFF == y % 0xFFFF
  {
  }

  // A receiver accepts the checksum: the ones-complement sum over everything is all ones.
  predicate Verifies(words: seq<Word>) {
    Fold(Sum(words)) == 0xFFFF
  }

  predicate IsBroadcastBit(bit: Word) {
    bit == 0x8000 || bit == 0x0080
  }

  predicate HasBit(w: Word, bit: Word)
    requires IsBroadcastBit(bit)
  {
    if bit == 0x8000 then w >= 0x8000 else (w / 0x80) % 2 == 1
  }

  // The words after dhcp_flag_bcast.
  function Patched(words: seq<Word>, check: nat, flags: nat, bcast: Word): (r: seq<Word>)
    requires check < |words| && flags < |words| && check != flags && IsBroadcastBit(bcast)
  {
    if HasBit(words[flags], bcast) then words
    else
      var f: Word := words[flags] + bcast;
      words[flags := f][check := 0xFFFF - Fold(0xFFFF - words[check] + f)]
  }

  method DhcpFlagBcast(words: array<Word>, check: nat, flags: nat, bcast: Word)
    requires check < words.Length && flags < words.Length && check != flags && IsBroadcastBit(bcast)
    modifies words
    ensures words[..] == Patched(old(words[..]), check, flags, bcast)
  {
    if !HasBit(words[flags], bcast) {
      words[flags] := words[flags] + bcast;
      var sum: nat := 0xFFFF - words[check];
      sum := sum + words[flags];
      ghost var total := sum;
      while sum / 0x1_0000 != 0
        invariant Fold(sum) == Fold(total)
        decreases sum
      {
        sum := sum % 0x1_0000 + sum / 0x1_0000;
      }
      words[check] := 0xFFFF - sum;
    }
  }

  // The bit is set when what is left of the word below the next higher bit reaches it.
  lemma HasBitIs(w: Word, bit: Word)
    requires IsBroadcastBit(bit)
    ensures HasBit(w, bit) <==> w % (2 * bit) >= bit
  {
  }

  /** The broadcast bit is set in the flags word and no other bit of it changes; of the other words only the checksum
      changes, and nothing at all if the bit was set before. */
  lemma PatchSets(words: seq<Word>, check: nat, flags: nat, bcast: Word)
    requires check < |words| && flags < |words| && check != flags && IsBroadcastBit(bcast)
    ensures var r := Patched(words, check, flags, bcast);
      && |r| == |words| && r[flags] % (2 * bcast) >= bcast
      && r[flags] == (if words[flags] % (2 * bcast) >= bcast then words[flags] else words[flags] + bcast)
      && (words[flags] % (2 * bcast) >= bcast ==> r == words)
      && (forall i :: 0 <= i < |words| && i != flags && i != check ==> r[i] == words[i])
  {
    HasBitIs(words[flags], bcast);
    if !HasBit(words[flags], bcast) { BitAdded(words[flags], bcast); }
  }

  lemma BitAdded(w: Word, bit: Word)
    requires IsBroadcastBit(bit) && !HasBit(w, bit)
    ensures (w + bit) % (2 * bit) >= bit
  {
  }

  lemma {:induction false} SumUpdate(words: seq<Word>, i: nat, w: Word)
    requires i < |words|
    ensures Sum(words[i := w]) == Sum(words) - words[i] + w
  {
    if i == 0 {
      assert words[0 := w][1..] == words[1..];
    } else {
      SumUpdate(words[1..], i - 1, w);
      assert words[i := w][1..] == words[1..][i - 1 := w];
    }
  }

  lemma FoldQuotient(x: nat) returns (q: int)
    ensures x == Fold(x) + 0xFFFF * q
  {
    var r := Fold(x);
    q := x / 0xFFFF - r / 0xFFFF;
  }

  lemma PatchedWords(words: seq<Word>, check: nat, flags: nat, f: Word, c: Word)
    requires check < |words| && flags < |words| && check != flags
    ensures Sum(words[flags := f][check := c]) == Sum(words) - words[flags] + f - words[check] + c
    ensures Sum(words[flags := f][check := c]) >= f
  {
    SumUpdate(words, flags, f);
    SumUpdate(words[flags := f], check, c);
    SumAtLeast(words[flags := f][check := c], flags);
  }

  // The sum over the patched datagram, up to multiples of 0xFFFF, has lost the old flags word.
  lemma PatchedSum(words: seq<Word>, check: nat, flags: nat, bcast: Word) returns (q: int)
    requires check < |words| && flags < |words| && check != flags && IsBroadcastBit(bcast)
    requires !HasBit(words[flags], bcast)
    ensures Sum(Patched(words, check, flags, bcast)) > 0
    ensures Sum(Patched(words, check, flags, bcast)) + words[flags] == Sum(words) + 0xFFFF * q
  {
    var f: Word := words[flags] + bcast;
    var x := 0xFFFF - words[check] + f;
    q := FoldQuotient(x);
    var folded := Fold(x);
    PatchedWords(words, check, flags, f, 0xFFFF - folded);
  }

  lemma {:induction false} SumAtLeast(words: seq<Word>, i: nat)
    requires i < |words|
    ensures Sum(words) >= words[i]
  {
    if i > 0 { SumAtLeast(words[1..], i - 1); }
  }

  lemma VerifiesIsMultiple(words: seq<Word>)
    ensures Verifies(words) <==> Sum(words) > 0 && Sum(words) % 0xFFFF == 0
  {
  }

  /** A datagram whose checksum verifies and whose broadcast bit is clear verifies after the patch if and
      only if its flags word was zero: the patch adds the whole new flags word, not the difference. */
  lemma PatchVerifies(words: seq<Word>, check: nat, flags: nat, bcast: Word)
    requires check < |words| && flags < |words| && check != flags && IsBroadcastBit(bcast)
    requires Verifies(words) && !HasBit(words[flags], bcast)
    ensures Verifies(Patched(words, check, flags, bcast)) <==> words[flags] == 0
  {
    var after := Sum(Patched(words, check, flags, bcast));
    var q := PatchedSum(words, check, flags, bcast);
    VerifiesIsMultiple(words);
    VerifiesIsMultiple(Patched(words, check, flags, bcast));
    var k := Sum(words) / 0xFFFF;
    assert Sum(words) == 0xFFFF * k;
    assert after + words[flags] == 0xFFFF * (k + q);
    assert words[flags] < 0xFFFF;
    Multiple(after, words[flags], k + q);
  }

  lemma Multiple(x: nat, f: nat, q: int)
    requires x + f == 0xFFFF * q && f < 0xFFFF
    ensures x % 0xFFFF == 0 <==> f == 0
  {
    if f != 0 {
      assert x == 0xFFFF * (q - 1) + (0xFFFF - f);
    }
  }

  lemma CarryOnce(f: Word, x: nat)
    requires f > 0 && x == 0xFFFF + f
    ensures Fold(x) == f
  {
    assert x % 0x1_0000 == f - 1 && x / 0x1_0000 == 1;
  }

  lemma PatchedIs(words: seq<Word>, check: nat, flags: nat, bcast: Word, f: Word, x: nat)
    requires check < |words| && flags < |words| && check != flags && IsBroadcastBit(bcast)
    requires !HasBit(words[flags], bcast) && f == words[flags] + bcast && x == 0xFFFF - words[check] + f
    ensures Patched(words, check, flags, bcast) == words[flags := f][check := 0xFFFF - Fold(x)]
  {
  }

  lemma PatchedWithoutChecksum(words: seq<Word>, check: nat, flags: nat, bcast: Word, f: Word)
    requires check < |words| && flags < |words| && check != flags && IsBroadcastBit(bcast)
    requires words[check] == 0 && !HasBit(words[flags], bcast) && f == words[flags] + bcast
    ensures Patched(words, check, flags, bcast) == words[flags := f][check := 0xFFFF - f]
  {
    CarryOnce(f, 0xFFFF + f);
    PatchedIs(words, check, flags, bcast, f, 0xFFFF + f);
  }

  lemma FilledSum(words: seq<Word>, check: nat, flags: nat, f: Word)
    requires check < |words| && flags < |words| && check != flags && words[check] == 0
    ensures Sum(words) >= words[flags]
    ensures Sum(words[flags := f][check := 0xFFFF - f]) == (Sum(words) - words[flags]) + 0xFFFF
  {
    PatchedWords(words, check, flags, f, 0xFFFF - f);
    SumAtLeast(words, flags);
  }

  lemma FilledVerifies(after: seq<Word>, rest: nat)
    requires Sum(after) == rest + 0xFFFF
    ensures Verifies(after) <==> rest % 0xFFFF == 0
  {
    VerifiesIsMultiple(after);
    FoldStep(Sum(after), 1, rest);
  }

  lemma FilledChecksum(words: seq<Word>, check: nat, flags: nat, f: Word, after: seq<Word>)
    requires check < |words| && flags < |words| && check != flags && words[check] == 0
    requires after == words[flags := f][check := 0xFFFF - f]
    ensures Sum(words) >= words[flags] && (Verifies(after) <==> (Sum(words) - words[flags]) % 0xFFFF == 0)
  {
    FilledSum(words, check, flags, f);
    FilledVerifies(after, Sum(words) - words[flags]);
  }

  lemma ClearBitFits(w: Word, bcast: Word) returns (f: Word)
    requires IsBroadcastBit(bcast) && !HasBit(w, bcast)
    ensures f == w + bcast
  {
    f := w + bcast;
  }

  // The words that a request without a checksum becomes.
  lemma AddedChecksum(words: seq<Word>, check: nat, flags: nat, bcast: Word) returns (f: Word)
    requires check < |words| && flags < |words| && check != flags && IsBroadcastBit(bcast)
    requires words[check] == 0 && !HasBit(words[flags], bcast)
    ensures f == words[flags] + bcast && Patched(words, check, flags, bcast) == words[flags := f][check := 0xFFFF - f]
  {
    f := ClearBitFits(words[flags], bcast);
    PatchedWithoutChecksum(words, check, flags, bcast, f);
  }

  /** A request sent without a checksum (a zero checksum word) leaves with one, which is right only if the
      words other than the flags happen to sum to zero. */
  lemma PatchAddsChecksum(words: seq<Word>, check: nat, flags: nat, bcast: Word)
    requires check < |words| && flags < |words| && check != flags && IsBroadcastBit(bcast)
    requires words[check] == 0 && !HasBit(words[flags], bcast)
    ensures Patched(words, check, flags, bcast)[check] == 0 <==> words[flags] == 0xFFFF - bcast
    ensures Verifies(Patched(words, check, flags, bcast)) <==> (Sum(words) - words[flags]) % 0xFFFF == 0
  {
    var f := AddedChecksum(words, check, flags, bcast);
    FilledChecksum(words, check, flags, f, Patched(words, check, flags, bcast));
  }
}
