/**
 The channel set (rtw_chplan.c, rtw_chset.c): the plans of the applied requests are intersected into a set of
 channels with flags, which is asked from then on instead of the plans; beacon hints lift "no initiating
 radiation" from a channel for a while.
 */
module ChannelSet {
  import opened Basics
  import opened RegdTypes

  datatype Flag = Dis | NoIr | Dfs | NoHt40U | NoHt40L | No80 | No160

  // The plan database: which domain codes are valid, and the flags of a channel of a plan, if it has it.
  datatype Regdb = Regdb(valid: nat -> bool, channel: (nat, nat) -> Option<set<Flag>>)

  ghost predicate WfDb(db: Regdb) {
    forall id, ch :: db.channel(id, ch).Some? ==> Dis !in db.channel(id, ch).value
  }

  // The additional limits of rf_ctl_t: flags that disable a channel, excluded channels (up to a zero), 11a.
  datatype Limits = Limits(disFlags: set<Flag>, excl: seq<nat>, en11a: bool)

  // hintEnd: bcn_hint_end_time, zero when stopped
  datatype ChInfo = ChInfo(band: Band, num: nat, flags: set<Flag>, regNoIr: bool, hintEnd: nat)

  // ----- what the set should be

  ghost predicate Excluded(excl: seq<nat>, ch: nat) {
    exists i :: 0 <= i < |excl| && excl[i] == ch && forall j :: 0 <= j <= i ==> excl[j] != 0
  }

  // A plan has the channel, and without a flag that disables it.
  predicate Usable(db: Regdb, lim: Limits, id: nat, ch: nat) {
    db.channel(id, ch).Some? && db.channel(id, ch).value !! lim.disFlags
  }

  ghost predicate Barred(lim: Limits, band: Band, ch: nat) {
    (band.B5G? && !lim.en11a) || Excluded(lim.excl, ch)
  }

  // Disabled by the limits or by one of the valid plans.
  ghost predicate Disabled(db: Regdb, lim: Limits, plans: seq<nat>, band: Band, ch: nat) {
    Barred(lim, band, ch) || exists id :: id in plans && db.valid(id) && !Usable(db, lim, id, ch)
  }

  ghost predicate SomePlanHas(db: Regdb, plans: seq<nat>, ch: nat, x: Flag) {
    exists id :: id in plans && db.valid(id) && db.channel(id, ch).Some? && x in db.channel(id, ch).value
  }

  // The flags of a channel after the plans: exactly "disabled", or all flags that some valid plan gives it.
  ghost predicate HasFlags(flags: set<Flag>, db: Regdb, lim: Limits, plans: seq<nat>, band: Band, ch: nat) {
    if Disabled(db, lim, plans, band, ch) then flags == {Dis}
    else forall x :: x in flags <==> SomePlanHas(db, plans, ch, x)
  }

  /** The flags do not depend on the order of the plans, nor on how often each is there. */
  lemma FlagsUnique(f: set<Flag>, g: set<Flag>, db: Regdb, lim: Limits, plans: seq<nat>, plans2: seq<nat>, band: Band,
                    ch: nat)
    requires forall id :: id in plans <==> id in plans2
    requires HasFlags(f, db, lim, plans, band, ch) && HasFlags(g, db, lim, plans2, band, ch)
    ensures f == g
  {
  }

  /** A channel is disabled exactly if it is a 5 GHz channel without 11a, or is excluded before the first zero, or some
      valid plan lacks it or gives it a flag that disables. */
  lemma DisabledIff(flags: set<Flag>, db: Regdb, lim: Limits, plans: seq<nat>, band: Band, ch: nat)
    requires WfDb(db) && HasFlags(flags, db, lim, plans, band, ch)
    ensures Dis in flags <==>
      || (band == B5G && !lim.en11a)
      || (exists i :: 0 <= i < |lim.excl| && lim.excl[i] == ch && 0 !in lim.excl[..i + 1])
      || (exists id :: id in plans && db.valid(id) && db.channel(id, ch).None?)
      || (exists id, x :: id in plans && db.valid(id) && x in lim.disFlags && db.channel(id, ch).Some?
                          && x in db.channel(id, ch).value)
  {
    assert Excluded(lim.excl, ch) <==> exists i :: 0 <= i < |lim.excl| && lim.excl[i] == ch && 0 !in lim.excl[..i + 1];
  }

  // One more plan, as rtw_chset_apply_from_rtk_priv puts it on a channel.
  function Restricted(flags: set<Flag>, db: Regdb, lim: Limits, id: nat, ch: nat): set<Flag> {
    if Dis in flags || !db.valid(id) then flags
    else if Usable(db, lim, id, ch) then flags + db.channel(id, ch).value
    else {Dis}
  }

  lemma RestrictedHasFlags(flags: set<Flag>, db: Regdb, lim: Limits, plans: seq<nat>, id: nat, band: Band, ch: nat)
    requires WfDb(db) && HasFlags(flags, db, lim, plans, band, ch)
    ensures HasFlags(Restricted(flags, db, lim, id, ch), db, lim, plans + [id], band, ch)
  {
  }

  // ----- asking the plan and asking the set

  // rtw_get_center_ch_by_band and rtw_get_op_chs_by_bcch_bw
  datatype ChTables = ChTables(center: (Band, nat, nat, nat) -> nat, opChs: (Band, nat, nat) -> Option<seq<nat>>)

  // The 20 MHz channels that a channel, width and offset stand for, if the combination exists.
  function OpChs(tabs: ChTables, band: Band, ch: nat, bw: nat, offset: nat): Option<seq<nat>> {
    tabs.opChs(band, tabs.center(band, ch, bw, offset), bw)
  }

  // Which passive channels are accepted: the primary one, and any.
  datatype Switches = Switches(primary: bool, passive: bool)

  // What the flags of sub-channel i forbid for a width (0: 20 MHz, 1: 40, 2: 80, 3: 160).
  predicate WidthOk(flags: set<Flag>, i: nat, bw: nat) {
    && (bw >= 1 && i % 2 == 0 ==> NoHt40U !in flags)
    && (bw >= 1 && i % 2 == 1 ==> NoHt40L !in flags)
    && (bw >= 2 ==> No80 !in flags)
    && (bw >= 3 ==> No160 !in flags)
  }

  predicate PassiveOkInSet(flags: set<Flag>, isPrimary: bool, sw: Switches) {
    NoIr in flags ==> sw.passive || (sw.primary && isPrimary)
  }

  predicate PassiveOkInPlan(flags: set<Flag>, isPrimary: bool, sw: Switches) {
    NoIr in flags ==> sw.passive && (sw.primary || !isPrimary)
  }

  ghost predicate PlanAcceptsSub(db: Regdb, lim: Limits, id: nat, ch: nat, op: nat, sw: Switches) {
    && Usable(db, lim, id, op) && !Excluded(lim.excl, op)
    && PassiveOkInPlan(db.channel(id, op).value, op == ch, sw)
  }

  // ops: the 20 MHz channels of the channel and width asked for
  ghost predicate PlanAccepts(db: Regdb, lim: Limits, id: nat, ch: nat, ops: seq<nat>, sw: Switches) {
    ops != [] && forall i :: 0 <= i < |ops| ==> PlanAcceptsSub(db, lim, id, ch, ops[i], sw)
  }

  predicate IsEntry(c: ChInfo, band: Band, num: nat) {
    c.band == band && c.num == num && num != 0
  }

  ghost predicate SetAcceptsSub(chs: seq<ChInfo>, band: Band, ch: nat, bw: nat, i: nat, op: nat, sw: Switches) {
    exists k :: 0 <= k < |chs| && IsEntry(chs[k], band, op) && Dis !in chs[k].flags
      && PassiveOkInSet(chs[k].flags, op == ch, sw) && WidthOk(chs[k].flags, i, bw)
  }

  ghost predicate SetAccepts(chs: seq<ChInfo>, band: Band, ch: nat, bw: nat, ops: seq<nat>, sw: Switches) {
    ops != [] && forall i :: 0 <= i < |ops| ==> SetAcceptsSub(chs, band, ch, bw, i, ops[i], sw)
  }

  ghost predicate DistinctChannels(chs: seq<ChInfo>) {
    forall i, j :: 0 <= i < j < |chs| ==> chs[i].band != chs[j].band || chs[i].num != chs[j].num
  }

  // The set holds what the plans leave, with no hint in effect.
  ghost predicate Reflects(chs: seq<ChInfo>, db: Regdb, lim: Limits, plans: seq<nat>) {
    forall k :: 0 <= k < |chs| ==> HasFlags(chs[k].flags, db, lim, plans, chs[k].band, chs[k].num)
  }

  // A sub-channel that is in the set, allowed by the limits and wide enough by every plan.
  ghost predicate Offered(chs: seq<ChInfo>, db: Regdb, lim: Limits, plans: seq<nat>, band: Band, bw: nat, i: nat,
                          op: nat) {
    && (exists k :: 0 <= k < |chs| && IsEntry(chs[k], band, op))
    && !Barred(lim, band, op)
    && forall id :: id in plans && db.valid(id) && db.channel(id, op).Some? ==> WidthOk(db.channel(id, op).value, i, bw)
  }

  /** What the set accepts, a plan that went into it accepts too, unless the two passive switches differ and
      the primary channel is passive by that plan; then the plan rejects it. */
  lemma SetThenPlan(chs: seq<ChInfo>, db: Regdb, lim: Limits, plans: seq<nat>, id: nat,
                    band: Band, ch: nat, bw: nat, ops: seq<nat>, sw: Switches)
    requires WfDb(db) && Reflects(chs, db, lim, plans) && id in plans && db.valid(id)
    requires SetAccepts(chs, band, ch, bw, ops, sw)
    ensures PlanAccepts(db, lim, id, ch, ops, sw) <==>
      sw.primary == sw.passive || !(ch in ops && db.channel(id, ch).Some? && NoIr in db.channel(id, ch).value)
  {
  }

  /** Conversely, the set accepts what it offers and every plan accepts. */
  lemma PlansThenSet(chs: seq<ChInfo>, db: Regdb, lim: Limits, plans: seq<nat>,
                     band: Band, ch: nat, bw: nat, ops: seq<nat>, sw: Switches)
    requires WfDb(db) && Reflects(chs, db, lim, plans) && ops != []
    requires forall i :: 0 <= i < |ops| ==> Offered(chs, db, lim, plans, band, bw, i, ops[i])
    requires forall id :: id in plans && db.valid(id) ==> PlanAccepts(db, lim, id, ch, ops, sw)
    ensures SetAccepts(chs, band, ch, bw, ops, sw)
  {
  }

  /** With the two passive switches equal, the set and the plans agree: the set accepts exactly what it offers
      and every valid plan accepts. */
  lemma CachedAgrees(chs: seq<ChInfo>, db: Regdb, lim: Limits, plans: seq<nat>,
                     band: Band, ch: nat, bw: nat, ops: seq<nat>, allow: bool)
    requires WfDb(db) && Reflects(chs, db, lim, plans) && ops != []
    ensures var sw := Switches(allow, allow);
      SetAccepts(chs, band, ch, bw, ops, sw) <==>
        && (forall i :: 0 <= i < |ops| ==> Offered(chs, db, lim, plans, band, bw, i, ops[i]))
        && (forall id :: id in plans && db.valid(id) ==> PlanAccepts(db, lim, id, ch, ops, sw))
  {
  }

  /** With different switches they need not agree: a passive primary channel that the set accepts and the only
      plan rejects, for either of the two settings. */
  lemma MixedSwitchesDiffer(sw: Switches)
    requires sw.primary != sw.passive
    ensures var db := Regdb(id => true, (id, ch) => Some({NoIr}));
      var lim := Limits({}, [], true);
      var chs := [ChInfo(B5G, 36, {NoIr}, true, 0)];
      && Reflects(chs, db, lim, [0x20])
      && SetAccepts(chs, B5G, 36, 0, [36], sw)
      && !PlanAccepts(db, lim, 0x20, 36, [36], sw)
  {
    var db := Regdb(id => true, (id, ch) => Some({NoIr}));
    var lim := Limits({}, [], true);
    var chs := [ChInfo(B5G, 36, {NoIr}, true, 0)];
    assert 0x20 in [0x20] && db.valid(0x20) && db.channel(0x20, 36) == Some({NoIr});
    forall x ensures x in {NoIr} <==> SomePlanHas(db, [0x20], 36, x) { }
    assert SetAcceptsSub(chs, B5G, 36, 0, 0, 36, sw) by { assert IsEntry(chs[0], B5G, 36); }
    assert !PlanAcceptsSub(db, lim, 0x20, 36, [36][0], sw);
  }

  /** What the set accepts for a width it accepts for a narrower one, on any part that starts at an even place. */
  lemma NarrowerToo(chs: seq<ChInfo>, band: Band, ch: nat, bw: nat, ops: seq<nat>, sw: Switches, less: nat, j: nat,
                    n: nat)
    requires SetAccepts(chs, band, ch, bw, ops, sw) && less <= bw && j % 2 == 0 && j < n <= |ops|
    ensures SetAccepts(chs, band, ch, less, ops[j..n], sw)
  {
    forall i | 0 <= i < n - j ensures SetAcceptsSub(chs, band, ch, less, i, ops[j..n][i], sw) {
      assert SetAcceptsSub(chs, band, ch, bw, j + i, ops[j + i], sw);
      assert (j + i) % 2 == i % 2;
    }
  }

  // A flag that is on every entry of a sub-channel bars the widths that it is about.
  lemma WidthBarred(chs: seq<ChInfo>, band: Band, ch: nat, bw: nat, ops: seq<nat>, sw: Switches, i: nat, x: Flag)
    requires SetAccepts(chs, band, ch, bw, ops, sw) && i < |ops|
    requires forall k :: 0 <= k < |chs| && IsEntry(chs[k], band, ops[i]) ==> x in chs[k].flags
    ensures x != Dis && (x == NoIr ==> sw.passive || (sw.primary && ops[i] == ch))
    ensures (x == NoHt40U ==> bw == 0 || i % 2 == 1) && (x == NoHt40L ==> bw == 0 || i % 2 == 0)
    ensures (x == No80 ==> bw < 2) && (x == No160 ==> bw < 3)
  {
    assert SetAcceptsSub(chs, band, ch, bw, i, ops[i], sw);
  }

  // ----- the driver's queries

  // rtw_rfctl_is_excl_chs
  method IsExcl(excl: seq<nat>, ch: nat) returns (r: bool)
    ensures r == Excluded(excl, ch)
  {
    for i := 0 to |excl|
      invariant forall j :: 0 <= j < i ==> excl[j] != 0 && excl[j] != ch
    {
      if excl[i] == 0 {
        return false;
      }
      if excl[i] == ch {
        return true;
      }
    }
    return false;
  }

  // _rtw_chset_search_bch: the first entry of the channel, of the enabled ones unless includeDis
  method SearchBch(chs: seq<ChInfo>, band: Band, num: nat, includeDis: bool) returns (k: int)
    ensures -1 <= k < |chs|
    ensures k >= 0 ==> IsEntry(chs[k], band, num) && (includeDis || Dis !in chs[k].flags)
    ensures forall i :: 0 <= i < |chs| && IsEntry(chs[i], band, num) && (includeDis || Dis !in chs[i].flags) ==>
      0 <= k <= i
  {
    if num == 0 {
      return -1;
    }
    for i := 0 to |chs|
      invariant forall j :: 0 <= j < i ==> !(IsEntry(chs[j], band, num) && (includeDis || Dis !in chs[j].flags))
    {
      if band == chs[i].band && num == chs[i].num && (includeDis || Dis !in chs[i].flags) {
        return i;
      }
    }
    return -1;
  }

  // rtw_chplan_is_bchbw_valid
  method PlanIsBchbwValid(db: Regdb, lim: Limits, tabs: ChTables, id: nat, band: Band, ch: nat, bw: nat, offset: nat,
                          sw: Switches)
    returns (valid: bool)
    ensures var o := OpChs(tabs, band, ch, bw, offset); valid == (o.Some? && PlanAccepts(db, lim, id, ch, o.value, sw))
  {
    var cch := tabs.center(band, ch, bw, offset);
    var found := tabs.opChs(band, cch, bw);
    if found.None? {
      return false;
    }
    var ops := found.value;
    var i := 0;
    while i < |ops|
      invariant i <= |ops| && forall j :: 0 <= j < i ==> PlanAcceptsSub(db, lim, id, ch, ops[j], sw)
    {
      var op := ops[i];
      var excl := IsExcl(lim.excl, op);
      if db.channel(id, op).None? || !(db.channel(id, op).value !! lim.disFlags) || excl {
        break;
      }
      if NoIr in db.channel(id, op).value {
        if !sw.passive || (!sw.primary && op == ch) {
          break;
        }
      }
      i := i + 1;
    }
    valid := |ops| != 0 && i == |ops|;
  }

  // _rtw_chset_is_bchbw_valid
  method SetIsBchbwValid(chs: seq<ChInfo>, tabs: ChTables, band: Band, ch: nat, bw: nat, offset: nat, sw: Switches)
    returns (valid: bool)
    requires DistinctChannels(chs)
    ensures var o := OpChs(tabs, band, ch, bw, offset); valid == (o.Some? && SetAccepts(chs, band, ch, bw, o.value, sw))
  {
    var cch := tabs.center(band, ch, bw, offset);
    var found := tabs.opChs(band, cch, bw);
    if found.None? {
      return false;
    }
    var ops := found.value;
    var i := 0;
    while i < |ops|
      invariant i <= |ops| && forall j :: 0 <= j < i ==> SetAcceptsSub(chs, band, ch, bw, j, ops[j], sw)
    {
      var k := SearchBch(chs, band, ops[i], false);
      if k == -1 {
        break;
      }
      if !sw.passive && NoIr in chs[k].flags {
        if !sw.primary {
          break;
        }
        if chs[k].num != ch {
          break;
        }
      }
      if bw >= 1 {
        if NoHt40U in chs[k].flags && i % 2 == 0 {
          break;
        }
        if NoHt40L in chs[k].flags && i % 2 == 1 {
          break;
        }
      }
      if bw >= 2 && No80 in chs[k].flags {
        break;
      }
      if bw >= 3 && No160 in chs[k].flags {
        break;
      }
      i := i + 1;
    }
    valid := |ops| != 0 && i == |ops|;
  }

  // ----- beacon hints

  const HINT_STOPPED: nat := 0

  // CH_IS_BCN_HINT
  predicate HintLive(c: ChInfo, now: nat) {
    c.hintEnd != HINT_STOPPED && TimeAfter(c.hintEnd, now)
  }

  // rtw_rfctl_reg_allow_beacon_hint
  predicate RegAllowsHint(alpha2: string) {
    alpha2 == "00" || alpha2 == "99" || alpha2 == "98"
  }

  // rtw_chinfo_allow_beacon_hint
  predicate AllowsHint(c: ChInfo) {
    !(c.band.B2G? && c.num <= 11) && Dfs !in c.flags
  }

  predicate LiftedNow(c: ChInfo) {
    c.regNoIr && NoIr !in c.flags
  }

  // The flags without the effect of a hint.
  function BaseFlags(c: ChInfo): set<Flag> {
    if c.regNoIr then c.flags + {NoIr} else c.flags
  }

  // What every channel keeps: passive only by regulation, and lifted only by a hint that is not stopped, on a
  // channel that allows it.
  predicate HintOk(c: ChInfo) {
    && (NoIr in c.flags ==> c.regNoIr)
    && (LiftedNow(c) ==> c.hintEnd != HINT_STOPPED && AllowsHint(c))
  }

  predicate SameChannel(c: ChInfo, d: ChInfo) {
    c.band == d.band && c.num == d.num
  }

  // Hints and their expiry change nothing but the hint and the lifting.
  predicate SameBase(c: ChInfo, d: ChInfo) {
    SameChannel(c, d) && c.regNoIr == d.regNoIr && BaseFlags(c) == BaseFlags(d)
  }

  // When a hint that comes now ends; never at the value that means stopped.
  function HintEnd(now: nat, ticks: nat): (end: nat)
    ensures end != HINT_STOPPED
  {
    var end := (now + ticks) % JIFFIES_MOD;
    if end == HINT_STOPPED then 1 else end
  }

  // A beacon was heard on the enabled channel c: the hint is renewed, and the channel is lifted if it is passive and
  // the country and the channel allow it.
  function Hinted(c: ChInfo, now: nat, ticks: nat, alpha2: string): ChInfo {
    c.(hintEnd := HintEnd(now, ticks),
       flags := if NoIr in c.flags && RegAllowsHint(alpha2) && AllowsHint(c) then c.flags - {NoIr} else c.flags)
  }

  // What a beacon on a channel of a band does to c.
  function Heard(c: ChInfo, band: Band, ch: nat, now: nat, ticks: nat, alpha2: string): ChInfo {
    if IsEntry(c, band, ch) && Dis !in c.flags then Hinted(c, now, ticks, alpha2) else c
  }

  lemma HintedOk(c: ChInfo, now: nat, ticks: nat, alpha2: string)
    requires HintOk(c)
    ensures HintOk(Hinted(c, now, ticks, alpha2)) && SameBase(Hinted(c, now, ticks, alpha2), c)
  {
    assert BaseFlags(Hinted(c, now, ticks, alpha2)) == BaseFlags(c);
  }

  /** A hint is live for the ticks that it was given, and for one more when it would have ended at zero. */
  lemma HintLasts(c: ChInfo, now: nat, ticks: nat, alpha2: string, d: nat)
    requires 0 < ticks < JIFFIES_MOD / 2 && d < JIFFIES_MOD / 2
    ensures HintLive(Hinted(c, now, ticks, alpha2), (now + d) % JIFFIES_MOD) <==>
      d < ticks + (if (now + ticks) % JIFFIES_MOD == 0 then 1 else 0)
  {
    var t, h := (now + d) % JIFFIES_MOD, Hinted(c, now, ticks, alpha2);
    TicksOf(now, d);
    LiveIs(h, now, ticks, t);
  }

  // In terms of the ticks since the hint.
  lemma LiveIs(c: ChInfo, now: nat, ticks: nat, t: nat)
    requires 0 < ticks < JIFFIES_MOD / 2 && Ticks(now, t) < JIFFIES_MOD / 2 && c.hintEnd == HintEnd(now, ticks)
    ensures HintLive(c, t) <==> Ticks(now, t) < ticks + (if (now + ticks) % JIFFIES_MOD == 0 then 1 else 0)
  {
    if (now + ticks) % JIFFIES_MOD == 0 {
      OneMore(now + ticks);
      AfterAsLongAs(now, ticks + 1, t);
    } else {
      AfterAsLongAs(now, ticks, t);
    }
  }

  lemma OneMore(end: nat)
    requires end % JIFFIES_MOD == 0
    ensures (end + 1) % JIFFIES_MOD == 1
  {
  }

  /** A beacon on a passive channel lifts it exactly if the country is the world wide one, unknown or an
      intersection, and the channel is neither a radar channel nor one of the 2.4 GHz channels up to 11. */
  lemma HintLifts(c: ChInfo, now: nat, ticks: nat, alpha2: string)
    requires HintOk(c) && NoIr in c.flags
    ensures var d := Hinted(c, now, ticks, alpha2);
      (NoIr !in d.flags <==>
        && (alpha2 == "00" || alpha2 == "99" || alpha2 == "98")
        && Dfs !in c.flags && (c.band == B5G || c.num > 11))
  {
  }

  class Chset {
    var chs: seq<ChInfo>
    var enabledNum: nat

    // What was applied last.
    ghost const db: Regdb
    ghost var lim: Limits
    ghost var plans: seq<nat>

    ghost predicate Valid()
      reads this
    {
      && WfDb(db) && DistinctChannels(chs)
      && (forall k :: 0 <= k < |chs| ==> HintOk(chs[k]))
      && (forall k :: 0 <= k < |chs| ==> HasFlags(BaseFlags(chs[k]), db, lim, plans, chs[k].band, chs[k].num))
    }

    // rtw_process_beacon_hint; ticks: the validity of a hint
    method ProcessBeaconHint(band: Band, ch: nat, now: nat, ticks: nat, alpha2: string) returns (act: nat)
      requires Valid()
      modifies this`chs
      ensures Valid() && |chs| == |old(chs)|
      ensures forall i :: 0 <= i < |chs| ==> chs[i] == Heard(old(chs)[i], band, ch, now, ticks, alpha2)
      ensures act > 0 <==> exists i :: 0 <= i < |chs| && LiftedNow(chs[i]) && !LiftedNow(old(chs)[i])
    {
      act := 0;
      var k := SearchBch(chs, band, ch, false);
      if k == -1 {
        return;
      }
      HintedOk(chs[k], now, ticks, alpha2);
      var c := chs[k];
      var end := (now + ticks) % JIFFIES_MOD;
      if end == HINT_STOPPED {
        end := end + 1;
      }
      c := c.(hintEnd := end);
      if NoIr in c.flags && RegAllowsHint(alpha2) && AllowsHint(c) {
        c := c.(flags := c.flags - {NoIr});
        act := 1;
      }
      chs := chs[k := c];
    }

    // rtw_beacon_hint_expire; idle: nothing is linking, linked or beaconing;
    // clock: the reading for each channel
    method Expire(clock: nat -> nat, idle: bool) returns (deactivate: bool)
      requires Valid()
      modifies this`chs
      ensures Valid() && |chs| == |old(chs)| && forall i :: 0 <= i < |chs| ==> SameBase(chs[i], old(chs)[i])
      ensures forall i :: 0 <= i < |chs| ==> chs[i] == if idle then Expired(old(chs)[i], clock(i)) else old(chs)[i]
      ensures idle ==> forall i :: 0 <= i < |chs| && LiftedNow(chs[i]) ==> HintLive(chs[i], clock(i))
      ensures forall i :: 0 <= i < |chs| && (!idle || HintLive(old(chs)[i], clock(i))) ==> chs[i] == old(chs)[i]
      ensures deactivate <==> exists i :: 0 <= i < |chs| && LiftedNow(old(chs)[i]) && !LiftedNow(chs[i])
    {
      deactivate := false;
      if !idle {
        return;
      }
      for i := 0 to |chs|
        invariant |chs| == |old(chs)|
        invariant forall j :: 0 <= j < i ==> chs[j] == Expired(old(chs)[j], clock(j))
        invariant forall j :: i <= j < |chs| ==> chs[j] == old(chs)[j]
        invariant deactivate <==> exists j :: 0 <= j < i && LiftedNow(old(chs)[j]) && !LiftedNow(chs[j])
      {
        var c := chs[i];
        if !HintLive(c, clock(i)) && c.hintEnd != HINT_STOPPED {
          c := c.(hintEnd := HINT_STOPPED);
          if c.regNoIr && NoIr !in c.flags {
            c := c.(flags := c.flags + {NoIr});
            deactivate := true;
          }
          chs := chs[i := c];
        }
      }
      forall i | 0 <= i < |chs| ensures SameBase(chs[i], old(chs)[i]) && HintOk(chs[i]) {
        ExpiredOk(old(chs)[i], clock(i));
      }
    }

    constructor (ghost db: Regdb, chs: seq<ChInfo>)
      requires WfDb(db) && DistinctChannels(chs)
      requires forall k :: 0 <= k < |chs| ==> chs[k].flags == {} && !chs[k].regNoIr && chs[k].hintEnd == HINT_STOPPED
      ensures Valid() && this.chs == chs && this.db == db
    {
      this.chs, enabledNum, this.db, lim, plans := chs, 0, db, Limits({}, [], true), [];
      new;
      forall k | 0 <= k < |chs| ensures HasFlags(BaseFlags(chs[k]), db, lim, plans, chs[k].band, chs[k].num) {
        forall x ensures !SomePlanHas(db, [], chs[k].num, x) { }
      }
    }

    // The channels, with other flags
    ghost predicate OnlyFlags(before: seq<ChInfo>)
      reads this`chs
    {
      |chs| == |before| && forall k :: 0 <= k < |chs| ==> chs[k] == before[k].(flags := chs[k].flags)
    }

    // The first loop of rtw_rfctl_chset_apply_regulatory
    method ResetFlags(lim: Limits)
      modifies this`chs
      ensures OnlyFlags(old(chs))
      ensures forall k :: 0 <= k < |chs| ==> chs[k].flags == if Barred(lim, chs[k].band, chs[k].num) then {Dis} else {}
    {
      for i := 0 to |chs|
        invariant OnlyFlags(old(chs))
        invariant forall k :: 0 <= k < i ==> chs[k].flags == if Barred(lim, chs[k].band, chs[k].num) then {Dis} else {}
      {
        var excl := IsExcl(lim.excl, chs[i].num);
        if (chs[i].band.B5G? && !lim.en11a) || excl {
          chs := chs[i := chs[i].(flags := {Dis})];
        } else {
          chs := chs[i := chs[i].(flags := {})];
        }
      }
    }

    // rtw_chset_apply_from_rtk_priv
    method ApplyPlan(db: Regdb, lim: Limits, id: nat)
      modifies this`chs
      ensures OnlyFlags(old(chs))
      ensures forall k :: 0 <= k < |chs| ==> chs[k].flags == Restricted(old(chs)[k].flags, db, lim, id, chs[k].num)
    {
      for i := 0 to |chs|
        invariant OnlyFlags(old(chs))
        invariant forall k :: 0 <= k < i ==> chs[k].flags == Restricted(old(chs)[k].flags, db, lim, id, chs[k].num)
        invariant forall k :: i <= k < |chs| ==> chs[k] == old(chs)[k]
      {
        if Dis in chs[i].flags || !db.valid(id) {
          continue;
        }
        var usable := db.channel(id, chs[i].num).Some? && db.channel(id, chs[i].num).value !! lim.disFlags;
        if usable {
          chs := chs[i := chs[i].(flags := chs[i].flags + db.channel(id, chs[i].num).value)];
        } else {
          chs := chs[i := chs[i].(flags := {Dis})];
        }
      }
    }

    // rtw_rfctl_chset_apply_regd_reqs; ids: the domain codes of the applied requests, in list order
    method ApplyPlans(db: Regdb, lim: Limits, ids: seq<nat>)
      requires WfDb(db)
      modifies this`chs
      ensures OnlyFlags(old(chs))
      ensures forall k :: 0 <= k < |chs| ==> HasFlags(chs[k].flags, db, lim, ids, chs[k].band, chs[k].num)
    {
      ResetFlags(lim);
      forall k | 0 <= k < |chs| ensures HasFlags(chs[k].flags, db, lim, ids[..0], chs[k].band, chs[k].num) {
        forall x ensures !SomePlanHas(db, ids[..0], chs[k].num, x) { }
      }
      for i := 0 to |ids|
        invariant OnlyFlags(old(chs))
        invariant forall k :: 0 <= k < |chs| ==> HasFlags(chs[k].flags, db, lim, ids[..i], chs[k].band, chs[k].num)
      {
        ghost var before := chs;
        ApplyPlan(db, lim, ids[i]);
        assert ids[..i + 1] == ids[..i] + [ids[i]];
        forall k | 0 <= k < |chs| ensures HasFlags(chs[k].flags, db, lim, ids[..i + 1], chs[k].band, chs[k].num) {
          RestrictedHasFlags(before[k].flags, db, lim, ids[..i], ids[i], chs[k].band, chs[k].num);
        }
      }
      assert ids[..|ids|] == ids;
    }

    // The last loop of rtw_rfctl_chset_apply_regulatory
    method NoteAndLift(alpha2: string, clock: nat -> nat)
      modifies this`chs, this`enabledNum
      ensures |chs| == |old(chs)| && forall k :: 0 <= k < |chs| ==> chs[k] == Noted(old(chs)[k], alpha2, clock(k))
      ensures enabledNum == EnabledIn(chs)
    {
      enabledNum := 0;
      for i := 0 to |chs|
        invariant |chs| == |old(chs)| && enabledNum == EnabledIn(chs[..i])
        invariant forall k :: 0 <= k < |chs| ==>
          chs[k] == if k < i then Noted(old(chs)[k], alpha2, clock(k)) else old(chs)[k]
      {
        var c := chs[i].(regNoIr := NoIr in chs[i].flags);
        if Dis !in c.flags {
          enabledNum := enabledNum + 1;
          if NoIr in c.flags && HintLive(c, clock(i)) && RegAllowsHint(alpha2) && AllowsHint(c) {
            c := c.(flags := c.flags - {NoIr});
          }
        }
        ghost var front := chs[..i];
        chs := chs[i := c];
        assert chs[..i] == front && chs[..i + 1][..i] == front;
      }
      assert chs[..|chs|] == chs;
    }

    /** rtw_rfctl_chset_apply_regulatory: every channel gets what the plans leave it, whatever their order, and
        is lifted exactly if it has a live hint and the country and the channel allow it. */
    method ApplyRegulatory(db: Regdb, lim: Limits, ids: seq<nat>, alpha2: string, clock: nat -> nat)
      requires Valid() && db == this.db
      modifies this
      ensures Valid() && this.lim == lim && plans == ids && enabledNum == EnabledIn(chs)
      ensures |chs| == |old(chs)|
      ensures forall k :: 0 <= k < |chs| ==> SameChannel(chs[k], old(chs)[k]) && chs[k].hintEnd == old(chs)[k].hintEnd
      ensures forall k :: 0 <= k < |chs| ==>
        (LiftedNow(chs[k]) <==>
          chs[k].regNoIr && HintLive(chs[k], clock(k)) && RegAllowsHint(alpha2) && AllowsHint(chs[k]))
    {
      ApplyPlans(db, lim, ids);
      ghost var bare := chs;
      NoteAndLift(alpha2, clock);
      this.lim, plans := lim, ids;
      forall k | 0 <= k < |chs| ensures NotedOk(chs[k], bare[k], db, lim, ids, alpha2, clock(k)) {
        NotedIs(bare[k], db, lim, ids, alpha2, clock(k));
      }
    }
  }

  // What the last loop makes of a channel.
  function Noted(c: ChInfo, alpha2: string, now: nat): ChInfo {
    var d := c.(regNoIr := NoIr in c.flags);
    if Dis !in d.flags && NoIr in d.flags && HintLive(d, now) && RegAllowsHint(alpha2) && AllowsHint(d)
    then d.(flags := d.flags - {NoIr}) else d
  }

  ghost predicate NotedOk(d: ChInfo, c: ChInfo, db: Regdb, lim: Limits, ids: seq<nat>, alpha2: string, now: nat) {
    && SameChannel(d, c) && d.hintEnd == c.hintEnd && HintOk(d) && HasFlags(BaseFlags(d), db, lim, ids, d.band, d.num)
    && (LiftedNow(d) <==> d.regNoIr && HintLive(d, now) && RegAllowsHint(alpha2) && AllowsHint(d))
  }

  lemma NotedIs(c: ChInfo, db: Regdb, lim: Limits, ids: seq<nat>, alpha2: string, now: nat)
    requires WfDb(db) && HasFlags(c.flags, db, lim, ids, c.band, c.num)
    ensures NotedOk(Noted(c, alpha2, now), c, db, lim, ids, alpha2, now)
  {
  }

  function EnabledIn(chs: seq<ChInfo>): nat {
    if chs == [] then 0 else EnabledIn(chs[..|chs| - 1]) + if Dis in chs[|chs| - 1].flags then 0 else 1
  }

  /** Once no hint lifts anything, the set is what the plans leave, so that asking it is asking them. */
  lemma UnliftedReflects(chs: seq<ChInfo>, db: Regdb, lim: Limits, plans: seq<nat>)
    requires forall k :: 0 <= k < |chs| ==>
      !LiftedNow(chs[k]) && HasFlags(BaseFlags(chs[k]), db, lim, plans, chs[k].band, chs[k].num)
    ensures Reflects(chs, db, lim, plans)
  {
  }

  datatype Event =
    | Apply(lim: Limits, ids: seq<nat>, alpha2: string, times: nat -> nat)
    | Hint(band: Band, ch: nat, now: nat, ticks: nat, country: string)
    | ExpireHints(idle: bool, times: nat -> nat)

  // What was applied last.
  function InForce(lim: Limits, ids: seq<nat>, events: seq<Event>): (Limits, seq<nat>) {
    if events == [] then (lim, ids)
    else
      var last := events[|events| - 1];
      if last.Apply? then (last.lim, last.ids) else InForce(lim, ids, events[..|events| - 1])
  }

  // When the hint of a channel ends, from what was heard and expired.  A beacon on a disabled channel gives no hint.
  function HintStep(c: ChInfo, i: nat, e: Event): nat {
    match e
    case Apply(_, _, _, _) => c.hintEnd
    case Hint(band, ch, now, ticks, _) =>
      if IsEntry(c, band, ch) && Dis !in c.flags then HintEnd(now, ticks) else c.hintEnd
    case ExpireHints(idle, times) => if idle && !HintLive(c, times(i)) then HINT_STOPPED else c.hintEnd
  }

  // The event is a beacon on the channel of c, and gave c the hint that it has.
  predicate GaveHint(e: Event, c: ChInfo) {
    e.Hint? && e.band == c.band && e.ch == c.num && c.hintEnd == HintEnd(e.now, e.ticks)
  }

  // The hint of c is stopped, or the one at the start, or was given by one of the events.
  ghost predicate HintFrom(events: seq<Event>, c: ChInfo, first: nat) {
    || c.hintEnd == HINT_STOPPED || c.hintEnd == first
    || (exists i :: 0 <= i < |events| && GaveHint(events[i], c))
  }

  lemma HintFromStep(events: seq<Event>, e: Event, c: ChInfo, d: ChInfo, k: nat, first: nat)
    requires HintFrom(events, c, first) && SameChannel(d, c) && d.hintEnd == HintStep(c, k, e)
    ensures HintFrom(events + [e], d, first)
  {
    var all := events + [e];
    if d.hintEnd == c.hintEnd {
      if i :| 0 <= i < |events| && GaveHint(events[i], c) { assert GaveHint(all[i], d); }
    } else if e.Hint? {
      assert GaveHint(all[|events|], d);
    }
  }

  ghost predicate HintsFrom(events: seq<Event>, chs: seq<ChInfo>, first: seq<ChInfo>) {
    |chs| == |first| && forall k :: 0 <= k < |chs| ==> HintFrom(events, chs[k], first[k].hintEnd)
  }

  lemma HintsStep(events: seq<Event>, e: Event, before: seq<ChInfo>, after: seq<ChInfo>, first: seq<ChInfo>)
    requires HintsFrom(events, before, first) && |after| == |before|
    requires forall k :: 0 <= k < |after| ==> SameChannel(after[k], before[k])
    requires forall k :: 0 <= k < |after| ==> after[k].hintEnd == HintStep(before[k], k, e)
    ensures HintsFrom(events + [e], after, first)
  {
    forall k | 0 <= k < |after| ensures HintFrom(events + [e], after[k], first[k].hintEnd) {
      HintFromStep(events, e, before[k], after[k], k, first[k].hintEnd);
    }
  }

  // A beacon was heard on the channel of c, less than its ticks before t by the clock.
  ghost predicate HeardLately(events: seq<Event>, c: ChInfo, t: nat) {
    exists i :: 0 <= i < |events| && LatelyAt(events[i], c, t)
  }

  predicate LatelyAt(e: Event, c: ChInfo, t: nat) {
    && e.Hint? && e.band == c.band && e.ch == c.num
    && (0 < e.ticks < JIFFIES_MOD / 2 && Ticks(e.now, t) < JIFFIES_MOD / 2 ==>
          Ticks(e.now, t) < e.ticks + if (e.now + e.ticks) % JIFFIES_MOD == 0 then 1 else 0)
  }

  // After an idle pass, what is still lifted had a live hint.
  lemma LateAfterIdle(events: seq<Event>, c: ChInfo, d: ChInfo, first: nat, t: nat)
    requires HintFrom(events, c, first) && HintOk(c) && d == Expired(c, t) && LiftedNow(d)
    ensures HintLive(d, t) && (first == HINT_STOPPED ==> HeardLately(events, d, t))
  {
    ExpiredOk(c, t);
    if first == HINT_STOPPED { LiveIsLate(events, c, t); }
  }

  lemma LiveIsLate(events: seq<Event>, c: ChInfo, t: nat)
    requires HintFrom(events, c, HINT_STOPPED) && HintLive(c, t)
    ensures HeardLately(events, c, t)
  {
    var i :| 0 <= i < |events| && GaveHint(events[i], c);
    var e := events[i];
    if 0 < e.ticks < JIFFIES_MOD / 2 && Ticks(e.now, t) < JIFFIES_MOD / 2 { LiveIs(c, e.now, e.ticks, t); }
    assert LatelyAt(events[i], c, t);
  }

  /** Every run of regulatory changes, beacons and expiry passes at whatever times: the plans and limits in force
      are those applied last, and every channel has what they leave it, hints apart; channels are passive only by
      regulation; a lifted channel has a hint that is not stopped, and is neither a radar channel nor one of the
      2.4 GHz channels up to 11; and after an idle pass at the end a channel is lifted only if a beacon was heard on
      it within the validity of a hint. */
  method Run(s: Chset, db: Regdb, events: seq<Event>, clock: nat -> nat)
    requires s.Valid() && s.db == db
    modifies s
    ensures s.Valid() && (s.lim, s.plans) == InForce(old(s.lim), old(s.plans), events)
    ensures |s.chs| == |old(s.chs)| && forall k :: 0 <= k < |s.chs| ==> SameChannel(s.chs[k], old(s.chs)[k])
    ensures forall k :: 0 <= k < |s.chs| ==> (NoIr in s.chs[k].flags ==> s.chs[k].regNoIr)
    ensures forall k :: 0 <= k < |s.chs| && s.chs[k].regNoIr && NoIr !in s.chs[k].flags ==>
      && s.chs[k].hintEnd != HINT_STOPPED && Dfs !in s.chs[k].flags && !(s.chs[k].band.B2G? && s.chs[k].num <= 11)
      && HintLive(s.chs[k], clock(k))
      && (old(s.chs)[k].hintEnd == HINT_STOPPED ==> HeardLately(events, s.chs[k], clock(k)))
  {
    assert events[..0] == [];
    for i := 0 to |events|
      invariant HintsFrom(events[..i], s.chs, old(s.chs))
      invariant s.Valid() && (s.lim, s.plans) == InForce(old(s.lim), old(s.plans), events[..i])
      invariant |s.chs| == |old(s.chs)| && forall k :: 0 <= k < |s.chs| ==> SameChannel(s.chs[k], old(s.chs)[k])
    {
      assert events[..i + 1][..i] == events[..i];
      assert events[..i + 1] == events[..i] + [events[i]];
      ghost var before := s.chs;
      Perform(s, db, events[i]);
      HintsStep(events[..i], events[i], before, s.chs, old(s.chs));
    }
    assert events[..|events|] == events;
    ghost var last := s.chs;
    var _ := s.Expire(clock, true);
    forall k | 0 <= k < |s.chs| && LiftedNow(s.chs[k])
      ensures old(s.chs)[k].hintEnd == HINT_STOPPED ==> HeardLately(events, s.chs[k], clock(k))
    {
      LateAfterIdle(events, last[k], s.chs[k], old(s.chs)[k].hintEnd, clock(k));
    }
  }

  /** One event, exactly: the plans and limits, and the hint of every channel. */
  method Perform(s: Chset, db: Regdb, e: Event)
    requires s.Valid() && s.db == db
    modifies s
    ensures s.Valid() && (s.lim, s.plans) == if e.Apply? then (e.lim, e.ids) else (old(s.lim), old(s.plans))
    ensures |s.chs| == |old(s.chs)| && forall k :: 0 <= k < |s.chs| ==> SameChannel(s.chs[k], old(s.chs)[k])
    ensures forall k :: 0 <= k < |s.chs| ==> s.chs[k].hintEnd == HintStep(old(s.chs)[k], k, e)
  {
    match e {
      case Apply(lim, ids, alpha2, times) => s.ApplyRegulatory(db, lim, ids, alpha2, times);
      case Hint(band, ch, now, ticks, country) => var _ := s.ProcessBeaconHint(band, ch, now, ticks, country);
      case ExpireHints(idle, times) => var _ := s.Expire(times, idle);
    }
  }

  function Expired(c: ChInfo, now: nat): ChInfo {
    if HintLive(c, now) || c.hintEnd == HINT_STOPPED then c
    else c.(hintEnd := HINT_STOPPED, flags := BaseFlags(c))
  }

  lemma ExpiredOk(c: ChInfo, now: nat)
    requires HintOk(c)
    ensures SameBase(Expired(c, now), c) && HintOk(Expired(c, now))
    ensures LiftedNow(Expired(c, now)) ==> HintLive(c, now) && Expired(c, now) == c
  {
  }
}
