/**
 The station bookkeeping of an access point (rtw_ap.c): each station carries flags, and for each flag
 the driver keeps a counter that joins, re-joins, coexistence reports and leaves adjust in place.  The
 HT operation mode and the ERP element of the beacon are derived from the counters.

 The num_sta_* fields are one map indexed by the flag they count.
 */
module StationCounters {

  type Mac = nat

  datatype Flag = NoShortPreamble | NonErp | NoShortSlot | NoHt | NoHtGf | Ht20 | Intolerant40

  // What a station announces when it associates.
  datatype Caps = Caps(shortPreamble: bool, nonErp: bool, shortSlot: bool, ht: bool,
                       greenfield: bool, width40: bool, intolerant40: bool)

  datatype ErpInfo = ErpInfo(nonErpPresent: bool, useProtection: bool, barkerPreamble: bool)

  // ht_op_mode: the two-bit operation mode and the two bits that the driver maintains with it.
  datatype HtOpMode = HtOpMode(mode: nat, nonGfPresent: bool, nonHtPresent: bool)

  const OP_MODE_PURE: nat := 0
  const OP_MODE_MAY_BE_LEGACY_STAS: nat := 1
  const OP_MODE_20MHZ_HT_STA_ASSOCED: nat := 2
  const OP_MODE_MIXED: nat := 3

  type Stations = map<Mac, set<Flag>>

  function Carriers(stas: Stations, f: Flag): set<Mac> {
    set m | m in stas && f in stas[m]
  }

  // Section 9.4.2.57 of IEEE Std 802.11-2016, from the stations themselves.
  function ModeOf(stas: Stations, olbcHt: bool, apWidth40: bool): HtOpMode {
    HtOpMode(
      if Carriers(stas, NoHt) != {} then OP_MODE_MIXED
      else if apWidth40 && Carriers(stas, Ht20) != {} then OP_MODE_20MHZ_HT_STA_ASSOCED
      else if olbcHt then OP_MODE_MAY_BE_LEGACY_STAS
      else OP_MODE_PURE,
      Carriers(stas, NoHtGf) != {},
      Carriers(stas, NoHt) != {} || olbcHt)
  }

  // The same from the counters, as rtw_ht_operation_update tests them.
  function ModeFrom(noHtGf: int, noHt: int, ht20: int, olbcHt: bool, apWidth40: bool): HtOpMode {
    HtOpMode(
      if noHt != 0 then OP_MODE_MIXED
      else if apWidth40 && ht20 != 0 then OP_MODE_20MHZ_HT_STA_ASSOCED
      else if olbcHt then OP_MODE_MAY_BE_LEGACY_STAS
      else OP_MODE_PURE,
      noHtGf != 0,
      noHt != 0 || olbcHt)
  }

  /** The mode from the counters is the one that the stations call for if and only if the counter of stations
      without HT is zero exactly when there are none. */
  lemma ModeRightIff(stas: Stations, noHt: int, olbcHt: bool, apWidth40: bool)
    ensures var mode := ModeFrom(|Carriers(stas, NoHtGf)|, noHt, |Carriers(stas, Ht20)|, olbcHt, apWidth40);
      mode == ModeOf(stas, olbcHt, apWidth40) <==> (noHt == 0 <==> Carriers(stas, NoHt) == {})
  {
  }

  function With(s: set<Flag>, f: Flag, on: bool): set<Flag> {
    if on then s + {f} else s - {f}
  }

  // The preamble, ERP and slot time flags follow what the station announces.
  function BasicFlags(before: set<Flag>, noShortPreamble: bool, nonErp: bool, noShortSlot: bool): set<Flag> {
    With(With(With(before, NoShortPreamble, noShortPreamble), NonErp, nonErp), NoShortSlot, noShortSlot)
  }

  // Flags of HT features are raised by a join, but never taken back by a re-join.
  function HtFlags(before: set<Flag>, c: Caps): set<Flag> {
    if !c.ht then before + {NoHt}
    else
      var a := before - {NoHt};
      var b := if c.greenfield then a else a + {NoHtGf};
      var d := if c.width40 then b else b + {Ht20};
      if c.intolerant40 then d + {Intolerant40} else d
  }

  // The flags of a station after it joined, given those it carried before.
  function FlagsAfterJoin(before: set<Flag>, c: Caps, htOn: bool): set<Flag> {
    var basic := BasicFlags(before, !c.shortPreamble, c.nonErp, !c.shortSlot);
    if htOn then HtFlags(basic, c) else basic
  }

  lemma RaiseCarriers(stas: Stations, m: Mac, f: Flag)
    requires m in stas
    ensures var after := stas[m := stas[m] + {f}];
      && Carriers(after, f) == Carriers(stas, f) + {m}
      && (forall g :: g != f ==> Carriers(after, g) == Carriers(stas, g))
      && (f in stas[m] ==> after == stas && m in Carriers(stas, f))
  {
    if f in stas[m] { assert stas[m] + {f} == stas[m]; }
  }

  lemma DropCarriers(stas: Stations, m: Mac, f: Flag)
    requires m in stas
    ensures var after := stas[m := stas[m] - {f}];
      && Carriers(after, f) == Carriers(stas, f) - {m}
      && (forall g :: g != f ==> Carriers(after, g) == Carriers(stas, g))
      && (f !in stas[m] ==> after == stas && m !in Carriers(stas, f))
  {
    if f !in stas[m] { assert stas[m] - {f} == stas[m]; }
  }

  // The Barker preamble bit after the stations changed: the element is rewritten only with the first and the last
  // non-ERP station.
  function Barker(bit: bool, before: Stations, after: Stations, erpEnabled: bool): bool {
    if erpEnabled && (Carriers(before, NonErp) == {}) != (Carriers(after, NonErp) == {})
    then Carriers(after, NoShortPreamble) != {} else bit
  }

  // The stations that the ERP element is about.
  function Legacy(stas: Stations): (set<Mac>, set<Mac>) {
    (Carriers(stas, NonErp), Carriers(stas, NoShortPreamble))
  }

  // How far a counter is from what it counts.
  function Drift(num: map<Flag, int>, stas: Stations, f: Flag): int
    requires f in num
  {
    num[f] - |Carriers(stas, f)|
  }

  ghost predicate Total(num: map<Flag, int>) {
    forall f :: f in num
  }

  // The counters moved together with the flags.
  ghost predicate InStep(num: map<Flag, int>, stas: Stations, num0: map<Flag, int>, stas0: Stations) {
    && Total(num) && Total(num0)
    && forall f :: Drift(num, stas, f) == Drift(num0, stas0, f)
  }

  lemma CountsCarriers(num: map<Flag, int>, stas: Stations, f: Flag)
    requires f in num && Drift(num, stas, f) == 0
    ensures num[f] == |Carriers(stas, f)| && (num[f] != 0 <==> Carriers(stas, f) != {})
  {
  }

  lemma NoFlagLeft(s: set<Flag>)
    ensures BasicFlags(s, false, false, false) - {NoHtGf} - {NoHt} - {Ht20} - {Intolerant40} == {}
  {
    forall f | f in s
      ensures f.NoShortPreamble? || f.NonErp? || f.NoShortSlot? || f.NoHtGf? || f.NoHt? || f.Ht20? || f.Intolerant40?
    {
    }
  }

  class Ap {
    const erpEnabled: bool  // ERP_enable, and the beacon has an ERP element
    const htOption: bool
    const htEnabled: bool   // registry ht_enable, and the wireless mode supports HT
    const apWidth40: bool

    var stas: Stations
    var num: map<Flag, int>
    var erp: ErpInfo
    var opMode: HtOpMode
    var olbcHt: bool

    // The ERP element tells of non-ERP stations.
    ghost predicate ErpOk()
      reads this`stas, this`erp
    {
      erpEnabled ==> erp.nonErpPresent == erp.useProtection == (Carriers(stas, NonErp) != {})
    }

    // Every counter but that of non-HT stations is exact.
    ghost predicate Valid()
      reads this`stas, this`num, this`erp
    {
      && Total(num)
      && (forall f :: f != NoHt ==> Drift(num, stas, f) == 0)
      && ErpOk()
    }

    // The mode that the stations and the counter of those without HT give.
    ghost function ModeNow(): HtOpMode
      requires NoHt in num
      reads this`stas, this`num, this`olbcHt
    {
      ModeFrom(|Carriers(stas, NoHtGf)|, num[NoHt], |Carriers(stas, Ht20)|, olbcHt, apWidth40)
    }

    ghost function View(): Book
      requires NoHt in num
      reads this`stas, this`num, this`olbcHt, this`opMode
    {
      Book(stas, num[NoHt], olbcHt, opMode)
    }

    ghost function Config(): Cfg {
      Cfg(htOption, htEnabled, apWidth40)
    }

    constructor (erpEnabled: bool, htOption: bool, htEnabled: bool, apWidth40: bool)
      ensures Valid() && View() == Book(map[], 0, false, HtOpMode(OP_MODE_PURE, false, false))
      ensures this.erpEnabled == erpEnabled && this.htOption == htOption && this.htEnabled == htEnabled
      ensures this.apWidth40 == apWidth40
    {
      this.erpEnabled, this.htOption, this.htEnabled, this.apWidth40 := erpEnabled, htOption, htEnabled, apWidth40;
      stas, olbcHt := map[], false;
      num := map[NoShortPreamble := 0, NonErp := 0, NoShortSlot := 0, NoHt := 0, NoHtGf := 0, Ht20 := 0,
                 Intolerant40 := 0];
      erp := ErpInfo(false, false, false);
      opMode := HtOpMode(OP_MODE_PURE, false, false);
      new;
      forall f: Flag ensures f in num && num[f] == 0 && Carriers(stas, f) == {} {
        match f
        case NoShortPreamble =>
        case _ =>
      }
    }

    // A flag is raised and counted unless the station carries it already.
    method Raise(m: Mac, f: Flag)
      requires m in stas && Total(num)
      modifies this`stas, this`num
      ensures stas == old(stas)[m := old(stas)[m] + {f}]
      ensures InStep(num, stas, old(num), old(stas))
      ensures Carriers(stas, NonErp) == old(Carriers(stas, NonErp)) + (if f == NonErp then {m} else {})
      ensures f != NoShortPreamble ==> Carriers(stas, NoShortPreamble) == old(Carriers(stas, NoShortPreamble))
    {
      RaiseCarriers(stas, m, f);
      if f !in stas[m] {
        stas := stas[m := stas[m] + {f}];
        num := num[f := num[f] + 1];
      }
    }

    // A flag is taken back and counted down if the station carries it.
    method Drop(m: Mac, f: Flag)
      requires m in stas && Total(num)
      modifies this`stas, this`num
      ensures stas == old(stas)[m := old(stas)[m] - {f}]
      ensures InStep(num, stas, old(num), old(stas))
      ensures Carriers(stas, NonErp) == old(Carriers(stas, NonErp)) - (if f == NonErp then {m} else {})
      ensures f != NoShortPreamble ==> Carriers(stas, NoShortPreamble) == old(Carriers(stas, NoShortPreamble))
    {
      DropCarriers(stas, m, f);
      if f in stas[m] {
        stas := stas[m := stas[m] - {f}];
        num := num[f := num[f] - 1];
      }
    }

    // update_bcn_erpinfo_ie
    method UpdateErpInfo()
      requires Total(num)
      modifies this`erp
      ensures erp == if erpEnabled then ErpInfo(num[NonErp] == 1, num[NonErp] == 1, num[NoShortPreamble] > 0)
                     else old(erp)
    {
      if !erpEnabled {
        return;
      }
      var bits := num[NonErp] == 1;
      erp := erp.(nonErpPresent := bits, useProtection := bits);
      erp := erp.(barkerPreamble := num[NoShortPreamble] > 0);
    }

    // rtw_ht_operation_update
    method HtOperationUpdate() returns (changes: nat)
      requires Total(num)
      modifies this`opMode
      ensures changes > 0 <==> opMode != old(opMode)
      ensures opMode == if htOption then ModeFrom(num[NoHtGf], num[NoHt], num[Ht20], olbcHt, apWidth40) else old(opMode)
    {
      changes := 0;
      if !htOption {
        return;
      }
      if !opMode.nonGfPresent && num[NoHtGf] != 0 {
        opMode := opMode.(nonGfPresent := true);
        changes := changes + 1;
      } else if opMode.nonGfPresent && num[NoHtGf] == 0 {
        opMode := opMode.(nonGfPresent := false);
        changes := changes + 1;
      }
      if !opMode.nonHtPresent && (num[NoHt] != 0 || olbcHt) {
        opMode := opMode.(nonHtPresent := true);
        changes := changes + 1;
      } else if opMode.nonHtPresent && num[NoHt] == 0 && !olbcHt {
        opMode := opMode.(nonHtPresent := false);
        changes := changes + 1;
      }
      var newMode := OP_MODE_PURE;
      if num[NoHt] != 0 {
        newMode := OP_MODE_MIXED;
      } else if apWidth40 && num[Ht20] != 0 {
        newMode := OP_MODE_20MHZ_HT_STA_ASSOCED;
      } else if olbcHt {
        newMode := OP_MODE_MAY_BE_LEGACY_STAS;
      }
      if opMode.mode != newMode {
        opMode := opMode.(mode := newMode);
        changes := changes + 1;
      }
    }

    method RewriteMode()
      requires Valid()
      modifies this`opMode
      ensures Valid() && opMode == if htOption then ModeNow() else old(opMode)
    {
      assert Drift(num, stas, NoHtGf) == 0 && Drift(num, stas, Ht20) == 0;
      var _ := HtOperationUpdate();
    }

    // The non-ERP flag of a station that joins or leaves, and the ERP element with the first and the last.
    method SetNonErp(m: Mac, nonErp: bool)
      requires Valid() && m in stas
      modifies this`stas, this`num, this`erp
      ensures Valid() && InStep(num, stas, old(num), old(stas))
      ensures stas == old(stas)[m := With(old(stas)[m], NonErp, nonErp)]
      ensures Carriers(stas, NoShortPreamble) == old(Carriers(stas, NoShortPreamble))
      ensures erp.barkerPreamble == Barker(old(erp.barkerPreamble), old(stas), stas, erpEnabled)
    {
      if nonErp && NonErp !in stas[m] {
        assert m !in Carriers(stas, NonErp);
        Raise(m, NonErp);
        CountsCarriers(num, stas, NonErp);
        CountsCarriers(num, stas, NoShortPreamble);
        if num[NonErp] == 1 {
          UpdateErpInfo();
        }
      } else if !nonErp && NonErp in stas[m] {
        assert m in Carriers(stas, NonErp);
        Drop(m, NonErp);
        CountsCarriers(num, stas, NonErp);
        CountsCarriers(num, stas, NoShortPreamble);
        if num[NonErp] == 0 {
          UpdateErpInfo();
        }
      } else {
        assert stas[m] == With(stas[m], NonErp, nonErp);
      }
    }

    // Another flag, which the ERP element does not depend on.
    method Set(m: Mac, f: Flag, on: bool)
      requires Valid() && m in stas && f != NonErp
      modifies this`stas, this`num
      ensures Valid() && InStep(num, stas, old(num), old(stas))
      ensures stas == old(stas)[m := With(old(stas)[m], f, on)]
      ensures Carriers(stas, NonErp) == old(Carriers(stas, NonErp))
      ensures f != NoShortPreamble ==> Carriers(stas, NoShortPreamble) == old(Carriers(stas, NoShortPreamble))
    {
      if on { Raise(m, f); } else { Drop(m, f); }
    }

    // bss_cap_update_on_sta_join
    method Join(m: Mac, c: Caps)
      requires Valid()
      modifies this`stas, this`num, this`erp, this`opMode
      ensures Valid() && InStep(num, stas, old(num), old(stas))
      ensures stas == old(stas)[m := FlagsAfterJoin(if m in old(stas) then old(stas)[m] else {}, c, htEnabled)]
      ensures opMode == if htOption && htEnabled then ModeNow() else old(opMode)
      ensures erp.barkerPreamble == Barker(old(erp.barkerPreamble), old(stas), stas, erpEnabled)
    {
      Admit(m);
      JoinFlags(m, c);
      if htEnabled {
        RewriteMode();
      }
    }

    // The flags alone.
    method JoinFlags(m: Mac, c: Caps)
      requires Valid() && m in stas
      modifies this`stas, this`num, this`erp
      ensures Valid() && InStep(num, stas, old(num), old(stas))
      ensures stas == old(stas)[m := FlagsAfterJoin(old(stas)[m], c, htEnabled)]
      ensures erp.barkerPreamble == Barker(old(erp.barkerPreamble), old(stas), stas, erpEnabled)
    {
      SetBasic(m, !c.shortPreamble, c.nonErp, !c.shortSlot);
      if htEnabled {
        JoinHt(m, c);
      }
    }

    // A station that is not known yet starts without flags.
    method Admit(m: Mac)
      requires Valid()
      modifies this`stas
      ensures Valid() && InStep(num, stas, num, old(stas))
      ensures stas == old(stas)[m := if m in old(stas) then old(stas)[m] else {}]
      ensures Legacy(stas) == old(Legacy(stas))
    {
      if m !in stas {
        stas := stas[m := {}];
      }
      forall f: Flag ensures Drift(num, stas, f) == Drift(num, old(stas), f) {
        assert Carriers(stas, f) == Carriers(old(stas), f);
      }
      assert Carriers(stas, NonErp) == Carriers(old(stas), NonErp);
      assert Carriers(stas, NoShortPreamble) == Carriers(old(stas), NoShortPreamble);
    }

    // The HT part of a join: flags of HT features are raised, never taken back.
    method JoinHt(m: Mac, c: Caps)
      requires Valid() && m in stas
      modifies this`stas, this`num
      ensures Valid() && InStep(num, stas, old(num), old(stas))
      ensures stas == old(stas)[m := HtFlags(old(stas)[m], c)]
      ensures Legacy(stas) == old(Legacy(stas))
    {
      if c.ht {
        Set(m, NoHt, false);
        if !c.greenfield { Set(m, NoHtGf, true); }
        if !c.width40 { Set(m, Ht20, true); }
        if c.intolerant40 { Set(m, Intolerant40, true); }
      } else {
        Set(m, NoHt, true);
      }
    }

    // rtw_process_public_act_bsscoex, the 40 MHz intolerant bit of the report
    method CoexReport(m: Mac, intolerant40: bool)
      requires Valid()
      modifies this`stas, this`num
      ensures Valid() && InStep(num, stas, old(num), old(stas))
      ensures stas == if m in old(stas) && intolerant40 then old(stas)[m := old(stas)[m] + {Intolerant40}]
                      else old(stas)
      ensures ModeOf(stas, olbcHt, apWidth40) == ModeOf(old(stas), olbcHt, apWidth40)
      ensures Legacy(stas) == old(Legacy(stas))
    {
      if m in stas && intolerant40 {
        RaiseCarriers(stas, m, Intolerant40);
        Set(m, Intolerant40, true);
      }
    }

    // bss_cap_update_on_sta_leave, after which the station is freed
    method Leave(m: Mac)
      requires Valid() && m in stas
      modifies this`stas, this`num, this`erp, this`opMode
      ensures Valid() && InStep(num, stas, old(num), old(stas))
      ensures stas == old(stas) - {m}
      ensures opMode == if htOption then ModeNow() else old(opMode)
      ensures erp.barkerPreamble == Barker(old(erp.barkerPreamble), old(stas), stas, erpEnabled)
    {
      LeaveFlags(m);
      RewriteMode();
    }

    method LeaveFlags(m: Mac)
      requires Valid() && m in stas
      modifies this`stas, this`num, this`erp
      ensures Valid() && InStep(num, stas, old(num), old(stas)) && stas == old(stas) - {m}
      ensures erp.barkerPreamble == Barker(old(erp.barkerPreamble), old(stas), stas, erpEnabled)
    {
      NoFlagLeft(stas[m]);
      SetBasic(m, false, false, false);
      LeaveHt(m);
      Dismiss(m);
    }

    // The preamble, ERP and slot time flags of a station.
    method SetBasic(m: Mac, noShortPreamble: bool, nonErp: bool, noShortSlot: bool)
      requires Valid() && m in stas
      modifies this`stas, this`num, this`erp
      ensures Valid() && InStep(num, stas, old(num), old(stas))
      ensures stas == old(stas)[m := BasicFlags(old(stas)[m], noShortPreamble, nonErp, noShortSlot)]
      ensures erp.barkerPreamble == Barker(old(erp.barkerPreamble), old(stas), stas, erpEnabled)
    {
      Set(m, NoShortPreamble, noShortPreamble);
      SetNonErp(m, nonErp);
      Set(m, NoShortSlot, noShortSlot);
    }

    method LeaveHt(m: Mac)
      requires Valid() && m in stas
      modifies this`stas, this`num
      ensures Valid() && InStep(num, stas, old(num), old(stas))
      ensures stas == old(stas)[m := old(stas)[m] - {NoHtGf} - {NoHt} - {Ht20} - {Intolerant40}]
      ensures Legacy(stas) == old(Legacy(stas))
    {
      Set(m, NoHtGf, false);
      Set(m, NoHt, false);
      Set(m, Ht20, false);
      // the guard of the last decrement never fires: the counter is positive whenever the flag is carried
      assert Intolerant40 in stas[m] ==> num[Intolerant40] > 0 by {
        CountsCarriers(num, stas, Intolerant40);
        assert Intolerant40 in stas[m] ==> m in Carriers(stas, Intolerant40);
      }
      Set(m, Intolerant40, false);
    }

    method Dismiss(m: Mac)
      requires Valid() && m in stas && stas[m] == {}
      modifies this`stas
      ensures Valid() && InStep(num, stas, num, old(stas)) && stas == old(stas) - {m}
      ensures Legacy(stas) == old(Legacy(stas))
    {
      stas := stas - {m};
      forall f: Flag ensures Drift(num, stas, f) == Drift(num, old(stas), f) {
        assert Carriers(stas, f) == Carriers(old(stas), f);
      }
      assert Carriers(stas, NonErp) == Carriers(old(stas), NonErp);
      assert Carriers(stas, NoShortPreamble) == Carriers(old(stas), NoShortPreamble);
    }

    // The reset of num_sta_no_ht at the end of rtw_ap's own scan: the counter stays exact if and only if no
    // station carries the flag, and is short by the number of those that do otherwise.
    method ResetNoHt()
      requires Valid()
      modifies this`num
      ensures Valid() && Drift(num, stas, NoHt) == -|Carriers(stas, NoHt)|
      ensures Drift(num, stas, NoHt) == 0 <==> Carriers(stas, NoHt) == {}
    {
      num := num[NoHt := 0];
      assert forall f :: f != NoHt ==> Drift(num, stas, f) == Drift(old(num), stas, f);
    }

    // collect_bss_info with wifi_spec: a network without HT that is heard in a scan is counted like a station
    method HearNonHt()
      requires Valid()
      modifies this`num
      ensures Valid() && Drift(num, stas, NoHt) == Drift(old(num), stas, NoHt) + 1
    {
      num := num[NoHt := num[NoHt] + 1];
      assert forall f :: f != NoHt ==> Drift(num, stas, f) == Drift(old(num), stas, f);
    }
  }

  /** A station without HT that leaves after the reset takes the counter below zero, and the operation mode is
      mixed from then on although no such station need be left. */
  method ResetThenLeave(ap: Ap, m: Mac)
    requires ap.Valid() && ap.htOption && m in ap.stas && NoHt in ap.stas[m]
    modifies ap
    ensures ap.Valid() && ap.num[NoHt] == -1 && ap.opMode.mode == OP_MODE_MIXED && ap.stas == old(ap.stas) - {m}
  {
    ap.ResetNoHt();
    assert m in Carriers(ap.stas, NoHt) && Carriers(ap.stas - {m}, NoHt) == Carriers(ap.stas, NoHt) - {m};
    ap.Leave(m);
  }

  /** The bit can be wrong: with a non-ERP station there, one without short preamble joins, and the beacon goes on
      allowing short preambles. */
  method BarkerMissed(ap: Ap, m: Mac, k: Mac, c: Caps, d: Caps)
    requires ap.Valid() && ap.erpEnabled && ap.stas == map[] && m != k
    requires c.nonErp && c.shortPreamble && !d.nonErp && !d.shortPreamble
    modifies ap
    ensures ap.Valid() && !ap.erp.barkerPreamble && k in Carriers(ap.stas, NoShortPreamble)
  {
    ap.Join(m, c);
    JoinSays({}, c, ap.htEnabled);
    assert Carriers(ap.stas, NonErp) == {m} && Carriers(ap.stas, NoShortPreamble) == {};
    ap.Join(k, d);
    JoinSays({}, d, ap.htEnabled);
    assert m in Carriers(ap.stas, NonErp);
  }

  datatype Event =
    | Joins(m: Mac, c: Caps)
    | Reports(m: Mac, intolerant40: bool)
    | Leaves(m: Mac)
    | HearsLegacy(olbcHt: bool)
    | HearsNonHt
    | ScanEnds

  // ----- what a run amounts to

  datatype Cfg = Cfg(htOption: bool, htEnabled: bool, apWidth40: bool)

  // The stations with their flags, the counter of stations without HT, and the operation mode; the other counters
  // are the numbers of carriers.
  datatype Book = Book(stas: Stations, noHt: int, olbcHt: bool, opMode: HtOpMode)

  function StationsStep(stas: Stations, e: Event, htEnabled: bool): Stations {
    match e
    case Joins(m, c) => stas[m := FlagsAfterJoin(if m in stas then stas[m] else {}, c, htEnabled)]
    case Reports(m, intolerant40) => if m in stas && intolerant40 then stas[m := stas[m] + {Intolerant40}] else stas
    case Leaves(m) => stas - {m}
    case _ => stas
  }

  // The operation mode is rewritten by a join, with HT on, and by the leave of a known station.
  predicate Rewrites(b: Book, e: Event, cfg: Cfg) {
    cfg.htOption && ((e.Joins? && cfg.htEnabled) || (e.Leaves? && e.m in b.stas))
  }

  function BookStep(b: Book, e: Event, cfg: Cfg): Book {
    var stas := StationsStep(b.stas, e, cfg.htEnabled);
    var noHt := if e.ScanEnds? then 0 else if e.HearsNonHt? then b.noHt + 1
                else b.noHt + |Carriers(stas, NoHt)| - |Carriers(b.stas, NoHt)|;
    var olbcHt := if e.HearsLegacy? then e.olbcHt else b.olbcHt;
    Book(stas, noHt, olbcHt,
         if Rewrites(b, e, cfg)
         then ModeFrom(|Carriers(stas, NoHtGf)|, noHt, |Carriers(stas, Ht20)|, olbcHt, cfg.apWidth40)
         else b.opMode)
  }

  function BookAfter(b: Book, events: seq<Event>, cfg: Cfg): Book {
    if events == [] then b else BookStep(BookAfter(b, events[..|events| - 1], cfg), events[|events| - 1], cfg)
  }

  // Networks without HT heard since the last reset, and stations that carried the flag at that reset.
  function HeardSinceReset(events: seq<Event>): nat {
    if events == [] || events[|events| - 1].ScanEnds? then 0
    else HeardSinceReset(events[..|events| - 1]) + if events[|events| - 1].HearsNonHt? then 1 else 0
  }

  function LostAtReset(b: Book, events: seq<Event>, cfg: Cfg): nat {
    if events == [] then 0
    else if events[|events| - 1].ScanEnds? then |Carriers(BookAfter(b, events[..|events| - 1], cfg).stas, NoHt)|
    else LostAtReset(b, events[..|events| - 1], cfg)
  }

  /** Over every run the counter of stations without HT is off by exactly the networks heard since the last reset,
      less the stations that carried the flag at that reset. */
  lemma {:induction false} NoHtDrift(b: Book, events: seq<Event>, cfg: Cfg)
    requires b.noHt == |Carriers(b.stas, NoHt)|
    ensures var a := BookAfter(b, events, cfg);
      a.noHt == |Carriers(a.stas, NoHt)| + HeardSinceReset(events) - LostAtReset(b, events, cfg)
  {
    if events != [] { NoHtDrift(b, events[..|events| - 1], cfg); }
  }

  /** After every run the operation mode is that of the last event that rewrote it; and a rewritten mode is the one
      that the stations call for if and only if the counter of stations without HT is then zero exactly when
      there are none. */
  lemma ModeAfter(b: Book, events: seq<Event>, cfg: Cfg, i: nat)
    requires i < |events| && Rewrites(BookAfter(b, events[..i], cfg), events[i], cfg)
    requires forall j :: i < j < |events| ==> !Rewrites(BookAfter(b, events[..j], cfg), events[j], cfg)
    ensures var done := BookAfter(b, events[..i + 1], cfg);
      && BookAfter(b, events, cfg).opMode == done.opMode
      && (done.opMode == ModeOf(done.stas, done.olbcHt, cfg.apWidth40) <==>
            (done.noHt == 0 <==> Carriers(done.stas, NoHt) == {}))
  {
    BookNext(b, events, cfg, i);
    Rewritten(BookAfter(b, events[..i], cfg), events[i], cfg);
    ModeStays(b, events, cfg, i + 1);
  }

  lemma BookNext(b: Book, events: seq<Event>, cfg: Cfg, i: nat)
    requires i < |events|
    ensures BookAfter(b, events[..i + 1], cfg) == BookStep(BookAfter(b, events[..i], cfg), events[i], cfg)
  {
    assert events[..i + 1][..i] == events[..i];
  }

  lemma Rewritten(b: Book, e: Event, cfg: Cfg)
    requires Rewrites(b, e, cfg)
    ensures var done := BookStep(b, e, cfg);
      done.opMode == ModeOf(done.stas, done.olbcHt, cfg.apWidth40) <==>
        (done.noHt == 0 <==> Carriers(done.stas, NoHt) == {})
  {
    var done := BookStep(b, e, cfg);
    ModeRightIff(done.stas, done.noHt, done.olbcHt, cfg.apWidth40);
  }

  lemma {:induction false} ModeStays(b: Book, events: seq<Event>, cfg: Cfg, i: nat)
    requires i <= |events|
    requires forall j :: i <= j < |events| ==> !Rewrites(BookAfter(b, events[..j], cfg), events[j], cfg)
    ensures BookAfter(b, events, cfg).opMode == BookAfter(b, events[..i], cfg).opMode
  {
    if i == |events| {
      assert events[..i] == events;
    } else {
      var front := events[..|events| - 1];
      assert front[..i] == events[..i];
      forall j | i <= j < |front| ensures !Rewrites(BookAfter(b, front[..j], cfg), front[j], cfg) {
        assert front[..j] == events[..j];
      }
      ModeStays(b, front, cfg, i);
    }
  }

  // ----- what the stations announced

  // Event i is the last join or leave of the station, and a join.
  ghost predicate LastJoin(events: seq<Event>, m: Mac, i: nat) {
    && i < |events| && events[i].Joins? && events[i].m == m
    && forall j :: i < j < |events| ==> !((events[j].Joins? || events[j].Leaves?) && events[j].m == m)
  }

  lemma {:induction false} LastJoinOf(b: Book, events: seq<Event>, cfg: Cfg, m: Mac) returns (i: nat)
    requires b.stas == map[] && m in BookAfter(b, events, cfg).stas
    ensures LastJoin(events, m, i)
  {
    var n := |events| - 1;
    if events[n].Joins? && events[n].m == m {
      i := n;
    } else {
      i := LastJoinOf(b, events[..n], cfg, m);
    }
  }

  /** A station that has joined last is known, and its preamble, ERP, slot time and, with HT on, legacy flags say what
      it announced then, whatever it announced before and whatever happened since. */
  lemma {:induction false} FlagsAreLast(b: Book, events: seq<Event>, cfg: Cfg, m: Mac, i: nat)
    requires LastJoin(events, m, i)
    ensures m in BookAfter(b, events, cfg).stas
    ensures var flags := BookAfter(b, events, cfg).stas[m];
      var c := events[i].c;
      && (NoShortPreamble in flags <==> !c.shortPreamble)
      && (NonErp in flags <==> c.nonErp)
      && (NoShortSlot in flags <==> !c.shortSlot)
      && (cfg.htEnabled ==> (NoHt in flags <==> !c.ht))
  {
    var n := |events| - 1;
    if i < n {
      FlagsAreLast(b, events[..n], cfg, m, i);
    } else {
      JoinSays(if m in BookAfter(b, events[..n], cfg).stas then BookAfter(b, events[..n], cfg).stas[m] else {},
               events[i].c, cfg.htEnabled);
    }
  }

  lemma JoinSays(before: set<Flag>, c: Caps, htOn: bool)
    ensures var flags := FlagsAfterJoin(before, c, htOn);
      && (NoShortPreamble in flags <==> !c.shortPreamble) && (NonErp in flags <==> c.nonErp)
      && (NoShortSlot in flags <==> !c.shortSlot) && (htOn ==> (NoHt in flags <==> !c.ht))
      && (NoHtGf in flags <==> NoHtGf in before || (htOn && c.ht && !c.greenfield))
      && (Ht20 in flags <==> Ht20 in before || (htOn && c.ht && !c.width40))
      && (Intolerant40 in flags <==> Intolerant40 in before || (htOn && c.ht && c.intolerant40))
  {
  }

  // The event gives the station a flag that it keeps until it leaves.
  predicate Brings(e: Event, m: Mac, f: Flag, htOn: bool) {
    || (e.Reports? && e.m == m && e.intolerant40 && f == Intolerant40)
    || (&& e.Joins? && e.m == m && htOn && e.c.ht
        && (if f == NoHtGf then !e.c.greenfield
            else if f == Ht20 then !e.c.width40
            else f == Intolerant40 && e.c.intolerant40))
  }

  // Some event since the station came has brought it the flag.
  ghost predicate Brought(b: Book, events: seq<Event>, cfg: Cfg, m: Mac, f: Flag) {
    exists i :: 0 <= i < |events| && BroughtAt(b, events, cfg, m, f, i)
  }

  ghost predicate BroughtAt(b: Book, events: seq<Event>, cfg: Cfg, m: Mac, f: Flag, i: nat)
    requires i < |events|
  {
    && Brings(events[i], m, f, cfg.htEnabled)
    && (events[i].Reports? ==> m in BookAfter(b, events[..i], cfg).stas)
    && forall j :: i < j < |events| ==> !(events[j].Leaves? && events[j].m == m)
  }

  lemma BroughtMore(b: Book, front: seq<Event>, e: Event, cfg: Cfg, m: Mac, f: Flag)
    ensures Brought(b, front + [e], cfg, m, f) <==>
      || (Brings(e, m, f, cfg.htEnabled) && (e.Reports? ==> m in BookAfter(b, front, cfg).stas))
      || (Brought(b, front, cfg, m, f) && !(e.Leaves? && e.m == m))
  {
    var all, n := front + [e], |front|;
    assert all[..n] == front;
    forall i | 0 <= i < n
      ensures BroughtAt(b, all, cfg, m, f, i) <==> BroughtAt(b, front, cfg, m, f, i) && !(e.Leaves? && e.m == m)
    {
      assert all[..i] == front[..i];
      assert BroughtAt(b, all, cfg, m, f, i) ==> !(all[n].Leaves? && all[n].m == m);
      assert forall j :: i < j < n ==> all[j] == front[j];
    }
    assert BroughtAt(b, all, cfg, m, f, n) <==>
      Brings(e, m, f, cfg.htEnabled) && (e.Reports? ==> m in BookAfter(b, front, cfg).stas);
  }

  /** A station carries the greenfield, 20 MHz and intolerance flags exactly if it was without greenfield, without 40
      MHz or intolerant in some join since it came, or reported intolerance: a better re-join does not clear them. */
  lemma {:induction false} HtFlagsStick(b: Book, events: seq<Event>, cfg: Cfg, m: Mac, f: Flag)
    requires b.stas == map[] && (f == NoHtGf || f == Ht20 || f == Intolerant40)
    ensures var stas := BookAfter(b, events, cfg).stas;
      (m in stas && f in stas[m] <==> Brought(b, events, cfg, m, f)) && (Brought(b, events, cfg, m, f) ==> m in stas)
  {
    if events != [] {
      var n := |events| - 1;
      var front, e := events[..n], events[n];
      HtFlagsStick(b, front, cfg, m, f);
      assert front + [e] == events;
      BroughtMore(b, front, e, cfg, m, f);
      if e.Joins? && e.m == m {
        var stas := BookAfter(b, front, cfg).stas;
        JoinSays(if m in stas then stas[m] else {}, e.c, cfg.htEnabled);
      }
    }
  }

  /** Some known station is non-ERP exactly if the last join of one that has not left announced it. */
  lemma NonErpTells(b: Book, events: seq<Event>, cfg: Cfg)
    requires b.stas == map[]
    ensures Carriers(BookAfter(b, events, cfg).stas, NonErp) != {} <==>
      exists m: Mac, i: nat :: LastJoin(events, m, i) && events[i].c.nonErp
  {
    var stas := BookAfter(b, events, cfg).stas;
    if m :| m in Carriers(stas, NonErp) {
      var i := LastJoinOf(b, events, cfg, m);
      FlagsAreLast(b, events, cfg, m, i);
    }
    if m: Mac, i: nat :| LastJoin(events, m, i) && events[i].c.nonErp {
      FlagsAreLast(b, events, cfg, m, i);
      assert m in Carriers(stas, NonErp);
    }
  }

  /** The operation mode that the stations call for: 3 with a station without HT; else 2 on a 40 MHz channel with a
      station of 20 MHz; else 1 when a legacy network was heard; else 0. */
  lemma ModeIs(stas: Stations, olbcHt: bool, apWidth40: bool)
    ensures var legacy := exists m :: m in stas && NoHt in stas[m];
      var narrow := apWidth40 && exists m :: m in stas && Ht20 in stas[m];
      var mode := ModeOf(stas, olbcHt, apWidth40);
      && (mode.mode == 3 <==> legacy)
      && (mode.mode == 2 <==> !legacy && narrow)
      && (mode.mode == 1 <==> !legacy && !narrow && olbcHt)
      && (mode.mode == 0 <==> !legacy && !narrow && !olbcHt)
      && (mode.nonGfPresent <==> exists m :: m in stas && NoHtGf in stas[m])
      && (mode.nonHtPresent <==> legacy || olbcHt)
  {
    forall f ensures Carriers(stas, f) != {} <==> exists m :: m in stas && f in stas[m] {
      if m :| m in stas && f in stas[m] { assert m in Carriers(stas, f); }
    }
  }

  // No scan of the access point's own touches the counter of stations without HT.
  ghost predicate NoScans(events: seq<Event>) {
    forall i :: 0 <= i < |events| ==> !events[i].HearsNonHt? && !events[i].ScanEnds?
  }

  lemma {:induction false} NoScansExact(b: Book, events: seq<Event>, cfg: Cfg)
    requires NoScans(events)
    ensures HeardSinceReset(events) == 0 && LostAtReset(b, events, cfg) == 0
  {
    if events != [] { NoScansExact(b, events[..|events| - 1], cfg); }
  }

  /** Whenever a station has just joined, with HT on, or a known one has just left, the operation mode is the one that
      the stations call for: always without scans of the access point's own, and with them exactly if the counter
      of stations without HT is zero just when there are none. */
  lemma ModeFollows(b: Book, events: seq<Event>, e: Event, cfg: Cfg)
    requires b.noHt == |Carriers(b.stas, NoHt)| && cfg.htOption && cfg.htEnabled
    requires e.Joins? || (e.Leaves? && e.m in BookAfter(b, events, cfg).stas)
    ensures var a := BookAfter(b, events + [e], cfg);
      && (a.opMode == ModeOf(a.stas, a.olbcHt, cfg.apWidth40) <==> (a.noHt == 0 <==> Carriers(a.stas, NoHt) == {}))
      && (NoScans(events) ==> a.opMode == ModeOf(a.stas, a.olbcHt, cfg.apWidth40))
  {
    var all, n := events + [e], |events|;
    assert all[..n] == events;
    assert all[..n + 1] == all;
    ModeAfter(b, all, cfg, n);
    if NoScans(events) {
      NoHtDrift(b, all, cfg);
      NoScansExact(b, all, cfg);
    }
  }

  // Other events leave it alone.
  lemma ModeWaits(b: Book, events: seq<Event>, e: Event, cfg: Cfg)
    requires !cfg.htOption || (!e.Joins? && !e.Leaves?)
    ensures BookAfter(b, events + [e], cfg).opMode == BookAfter(b, events, cfg).opMode
  {
    assert (events + [e])[..|events|] == events;
  }

  // ----- the Barker preamble bit

  function BarkerAfter(bit: bool, b: Book, events: seq<Event>, cfg: Cfg, erpEnabled: bool): bool {
    if events == [] then bit else
      var front := events[..|events| - 1];
      Barker(BarkerAfter(bit, b, front, cfg, erpEnabled), BookAfter(b, front, cfg).stas, BookAfter(b, events, cfg).stas,
             erpEnabled)
  }

  // Event i brings the first non-ERP station or takes away the last.
  ghost predicate Flips(b: Book, events: seq<Event>, cfg: Cfg, i: nat)
    requires i < |events|
  {
    (Carriers(BookAfter(b, events[..i], cfg).stas, NonErp) == {}) !=
    (Carriers(BookAfter(b, events[..i + 1], cfg).stas, NonErp) == {})
  }

  ghost predicate LastFlip(b: Book, events: seq<Event>, cfg: Cfg, i: nat) {
    i < |events| && Flips(b, events, cfg, i) && forall j :: i < j < |events| ==> !Flips(b, events, cfg, j)
  }

  lemma BarkerNext(bit: bool, b: Book, events: seq<Event>, cfg: Cfg, n: nat)
    requires n < |events|
    ensures BarkerAfter(bit, b, events[..n + 1], cfg, true) ==
      if Flips(b, events, cfg, n) then Carriers(BookAfter(b, events[..n + 1], cfg).stas, NoShortPreamble) != {}
      else BarkerAfter(bit, b, events[..n], cfg, true)
  {
    assert events[..n + 1][..n] == events[..n];
  }

  lemma {:induction false} BarkerStays(bit: bool, b: Book, events: seq<Event>, cfg: Cfg, i: nat, n: nat)
    requires i <= n <= |events| && forall j :: i <= j < n ==> !Flips(b, events, cfg, j)
    ensures BarkerAfter(bit, b, events[..n], cfg, true) == BarkerAfter(bit, b, events[..i], cfg, true)
  {
    if i < n {
      BarkerStays(bit, b, events, cfg, i, n - 1);
      BarkerNext(bit, b, events, cfg, n - 1);
    }
  }

  /** The Barker preamble bit says whether there was a station without short preamble when the first non-ERP station
      came or the last one went, whichever was last: later joins and leaves of such stations do not change it. */
  lemma BarkerIsLast(bit: bool, b: Book, events: seq<Event>, cfg: Cfg, i: nat)
    requires LastFlip(b, events, cfg, i)
    ensures BarkerAfter(bit, b, events, cfg, true) <==>
      Carriers(BookAfter(b, events[..i + 1], cfg).stas, NoShortPreamble) != {}
  {
    BarkerNext(bit, b, events, cfg, i);
    BarkerStays(bit, b, events, cfg, i + 1, |events|);
    assert events[..|events|] == events;
  }

  // So the bit is right exactly if there are such stations now just as there were then.
  lemma BarkerRightIff(bit: bool, b: Book, events: seq<Event>, cfg: Cfg, i: nat)
    requires LastFlip(b, events, cfg, i)
    ensures (BarkerAfter(bit, b, events, cfg, true) <==>
               Carriers(BookAfter(b, events, cfg).stas, NoShortPreamble) != {}) <==>
      (Carriers(BookAfter(b, events[..i + 1], cfg).stas, NoShortPreamble) == {} <==>
         Carriers(BookAfter(b, events, cfg).stas, NoShortPreamble) == {})
  {
    BarkerIsLast(bit, b, events, cfg, i);
  }

  /** After any run the stations, their flags, the counter of stations without HT and the operation mode are those
      of the run on the events; every other counter is the number of stations carrying its flag; and the ERP bits
      say whether there is a non-ERP station: from an empty start, whether a station that has not left announced
      itself as one when it joined last. */
  method Run(ap: Ap, events: seq<Event>)
    requires ap.Valid()
    modifies ap
    ensures ap.Valid() && ap.View() == BookAfter(old(ap.View()), events, ap.Config())
    ensures forall f :: f in ap.num && (f != NoHt ==> ap.num[f] == |Carriers(ap.stas, f)|)
    ensures ap.erpEnabled ==> ap.erp.useProtection == ap.erp.nonErpPresent == (Carriers(ap.stas, NonErp) != {})
    ensures ap.erpEnabled && old(ap.stas) == map[] ==>
      (ap.erp.useProtection <==> exists m: Mac, i: nat :: LastJoin(events, m, i) && events[i].c.nonErp)
    ensures ap.erp.barkerPreamble ==
      BarkerAfter(old(ap.erp.barkerPreamble), old(ap.View()), events, ap.Config(), ap.erpEnabled)
  {
    assert events[..0] == [];
    for i := 0 to |events|
      invariant ap.Valid() && ap.View() == BookAfter(old(ap.View()), events[..i], ap.Config())
      invariant ap.erp.barkerPreamble ==
        BarkerAfter(old(ap.erp.barkerPreamble), old(ap.View()), events[..i], ap.Config(), ap.erpEnabled)
    {
      assert events[..i + 1][..i] == events[..i];
      Perform(ap, events[i]);
    }
    assert events[..|events|] == events;
    forall f: Flag ensures f in ap.num && (f != NoHt ==> ap.num[f] == |Carriers(ap.stas, f)|) {
      assert f != NoHt ==> Drift(ap.num, ap.stas, f) == 0;
    }
    if old(ap.stas) == map[] { NonErpTells(old(ap.View()), events, ap.Config()); }
  }

  method Perform(ap: Ap, e: Event)
    requires ap.Valid()
    modifies ap
    ensures ap.Valid() && ap.View() == BookStep(old(ap.View()), e, ap.Config())
    ensures ap.erp.barkerPreamble == Barker(old(ap.erp.barkerPreamble), old(ap.stas), ap.stas, ap.erpEnabled)
  {
    match e {
      case Joins(m, c) =>
        ap.Join(m, c);
        assert Drift(ap.num, ap.stas, NoHt) == Drift(old(ap.num), old(ap.stas), NoHt);
      case Reports(m, b) =>
        ap.CoexReport(m, b);
        assert Drift(ap.num, ap.stas, NoHt) == Drift(old(ap.num), old(ap.stas), NoHt);
      case Leaves(m) =>
        if m in ap.stas {
          ap.Leave(m);
          assert Drift(ap.num, ap.stas, NoHt) == Drift(old(ap.num), old(ap.stas), NoHt);
        } else {
          assert ap.stas - {m} == ap.stas;
        }
      case HearsLegacy(b) => ap.olbcHt := b;
      case HearsNonHt => ap.HearNonHt();
      case ScanEnds => ap.ResetNoHt();
    }
  }
}
