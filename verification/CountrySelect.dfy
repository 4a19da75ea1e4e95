/**
 Country records and the choice among them (rtw_chplan.c): what is recorded for a received country element,
 and which record takes effect when the driver follows a single one.
 */
module CountrySelect {
  import opened Basics
  import opened RegdTypes

  datatype CisStatus = NoCountry | Unknown | OpchNoexist | Applicable

  // country_ie_slave_record
  datatype Record = Record(alpha2: string, band: nat, opch: nat, status: CisStatus, plan: Plan)

  const ZERO_PLAN: Plan := Plan("\0\0", 0, 0, 0, 0, {})

  // The country database: the plan of a country, the world wide plan, and the modes of a plan in both bands.
  datatype Tables = Tables(country: string -> Option<Plan>, world: Plan, edcca: Plan -> (nat, nat))

  ghost predicate WfTables(t: Tables) {
    t.world.alpha2 == WORLDWIDE && forall c :: t.country(c).Some? ==> t.country(c).value != ZERO_PLAN
  }

  function WorldWith(t: Tables, p: Plan): Plan {
    t.world.(edcca2g := t.edcca(p).0, edcca5g := t.edcca(p).1)
  }

  // rtw_get_cisr_from_recv_country_ie; accepts: whether the operating channel exists in a plan
  function RecordOf(t: Tables, accepts: Plan -> bool, code: Option<string>, band: nat, opch: nat): Record {
    var alpha2 := if code.Some? then code.value else "\0\0";
    if code.None? || code.value == "XX" then Record(alpha2, band, opch, NoCountry, ZERO_PLAN)
    else if t.country(code.value).None? then Record(alpha2, band, opch, Unknown, t.world)
    else
      var p := t.country(code.value).value;
      if !accepts(p) then Record(alpha2, band, opch, OpchNoexist, WorldWith(t, p))
      else Record(alpha2, band, opch, Applicable, p)
  }

  // The plan of a record, from its code and status.
  function PlanFor(t: Tables, alpha2: string, status: CisStatus): Plan {
    match status
    case NoCountry => ZERO_PLAN
    case Unknown => t.world
    case OpchNoexist => if t.country(alpha2).Some? then WorldWith(t, t.country(alpha2).value) else ZERO_PLAN
    case Applicable => if t.country(alpha2).Some? then t.country(alpha2).value else ZERO_PLAN
  }

  ghost predicate WfRecord(t: Tables, r: Record) {
    && r.plan == PlanFor(t, r.alpha2, r.status)
    && (r.status.OpchNoexist? || r.status.Applicable? ==> t.country(r.alpha2).Some?)
  }

  /** The plan of a record is a function of its country code and status. */
  lemma RecordOfIsWf(t: Tables, accepts: Plan -> bool, code: Option<string>, band: nat, opch: nat)
    ensures WfRecord(t, RecordOf(t, accepts, code, band, opch))
  {
  }

  /** What a country element is recorded as: nothing without a code or for the code "XX"; else unknown when the code
      is not in the database, applicable when the operating channel is in the country's plan, and otherwise as a
      country without that channel.  Only an applicable country gives its own plan; the others give the world
      wide one, with the modes of the country if that is known. */
  lemma RecordOfIs(t: Tables, accepts: Plan -> bool, code: Option<string>, band: nat, opch: nat)
    ensures var r := RecordOf(t, accepts, code, band, opch);
      var given := code.Some? && code.value != "XX";
      && r.band == band && r.opch == opch && (code.Some? ==> r.alpha2 == code.value)
      && (r.status.NoCountry? <==> !given)
      && (r.status.Unknown? <==> given && t.country(code.value).None?)
      && (r.status.Applicable? <==> given && t.country(code.value).Some? && accepts(t.country(code.value).value))
      && (r.status.Applicable? ==> r.plan == t.country(code.value).value)
      && (r.status.Unknown? ==> r.plan == t.world)
      && (r.status.OpchNoexist? ==>
            && (r.plan.edcca2g, r.plan.edcca5g) == t.edcca(t.country(code.value).value)
            && r.plan == t.world.(edcca2g := r.plan.edcca2g, edcca5g := r.plan.edcca5g))
  {
  }

  // The plan is empty exactly if there is no country.
  predicate Consistent(r: Record) {
    r.status.NoCountry? <==> r.plan == ZERO_PLAN
  }

  lemma WfIsConsistent(t: Tables, r: Record)
    requires WfTables(t) && WfRecord(t, r)
    ensures Consistent(r)
  {
  }

  // ----- the choice

  // cisr_status_score
  function Score(s: CisStatus): nat {
    match s
    case NoCountry => 0
    case Unknown => 3
    case OpchNoexist => 2
    case Applicable => 1
  }

  ghost predicate Best(rs: seq<Record>, n: nat, k: nat)
    requires n <= |rs|
  {
    k < n && !rs[k].status.NoCountry? && forall i :: 0 <= i < n ==> Score(rs[i].status) <= Score(rs[k].status)
  }

  // A best record that has the status and code of the one in effect.
  ghost predicate Preferred(rs: seq<Record>, n: nat, cur: Option<Record>, k: nat)
    requires n <= |rs|
  {
    Best(rs, n, k) && cur.Some? && rs[k].status == cur.value.status && rs[k].alpha2 == cur.value.alpha2
  }

  // Of the first n records, k is the first preferred one, or the first best one if there is no preferred one.
  ghost predicate IsPick(rs: seq<Record>, n: nat, cur: Option<Record>, k: nat)
    requires n <= |rs|
  {
    if exists i :: Preferred(rs, n, cur, i)
    then Preferred(rs, n, cur, k) && forall i :: 0 <= i < k ==> !Preferred(rs, n, cur, i)
    else Best(rs, n, k) && forall i :: 0 <= i < k ==> !Best(rs, n, i)
  }

  ghost predicate NoCountries(rs: seq<Record>, n: nat)
    requires n <= |rs|
  {
    forall i :: 0 <= i < n ==> rs[i].status.NoCountry?
  }

  // The choice rule of the loop: whether record i takes over from record k.
  predicate TakesOver(r: Record, best: Record, cur: Option<Record>) {
    || Score(r.status) > Score(best.status)
    || (&& Score(r.status) == Score(best.status)
        && cur.Some? && cur.value.status == best.status
        && cur.value.alpha2 != best.alpha2 && cur.value.alpha2 == r.alpha2)
  }

  lemma PickFirst(rs: seq<Record>, n: nat, cur: Option<Record>)
    requires n < |rs| && NoCountries(rs, n) && !rs[n].status.NoCountry?
    ensures IsPick(rs, n + 1, cur, n)
  {
  }

  lemma BestStep(rs: seq<Record>, n: nat, k: nat, i: nat)
    requires n < |rs| && Best(rs, n, k)
    ensures var s, m := Score(rs[n].status), Score(rs[k].status);
      Best(rs, n + 1, i) <==> if s > m then i == n else Best(rs, n, i) || (s == m && i == n)
  {
  }

  lemma PickStep(rs: seq<Record>, n: nat, cur: Option<Record>, k: nat)
    requires n < |rs| && IsPick(rs, n, cur, k)
    ensures IsPick(rs, n + 1, cur, if !rs[n].status.NoCountry? && TakesOver(rs[n], rs[k], cur) then n else k)
  {
    var n1 := n + 1;
    var s, m := Score(rs[n].status), Score(rs[k].status);
    assert Best(rs, n, k);
    forall i: nat ensures Best(rs, n1, i) <==> if s > m then i == n else Best(rs, n, i) || (s == m && i == n) {
      BestStep(rs, n, k, i);
    }
    if s > m {
      assert IsPick(rs, n1, cur, n);
    } else if s < m {
      assert forall i: nat :: Preferred(rs, n1, cur, i) <==> Preferred(rs, n, cur, i);
      assert IsPick(rs, n1, cur, k);
    } else {
      PickTie(rs, n, cur, k);
    }
  }

  lemma PickTie(rs: seq<Record>, n: nat, cur: Option<Record>, k: nat)
    requires n < |rs| && IsPick(rs, n, cur, k) && Score(rs[n].status) == Score(rs[k].status) > 0
    ensures IsPick(rs, n + 1, cur, if TakesOver(rs[n], rs[k], cur) then n else k)
  {
    var n1 := n + 1;
    forall i: nat ensures Best(rs, n1, i) <==> Best(rs, n, i) || i == n {
      BestStep(rs, n, k, i);
    }
    assert forall i: nat :: i < n ==> (Preferred(rs, n1, cur, i) <==> Preferred(rs, n, cur, i));
    if TakesOver(rs[n], rs[k], cur) {
      assert Preferred(rs, n1, cur, n) && !Preferred(rs, n, cur, k);
    } else if exists i :: Preferred(rs, n, cur, i) {
      assert Preferred(rs, n1, cur, k);
    } else {
      assert !Preferred(rs, n1, cur, n) by {
        if Preferred(rs, n1, cur, n) {
          assert rs[k].status == rs[n].status && Best(rs, n, k) && Preferred(rs, n, cur, k);
        }
      }
      assert Best(rs, n1, k);
    }
  }

  // rtw_chplan_select_effected_per_link_cisr, the scan
  method Select(rs: seq<Record>, cur: Option<Record>) returns (found: bool, k: nat)
    ensures if found then IsPick(rs, |rs|, cur, k) else NoCountries(rs, |rs|)
  {
    found, k := false, 0;
    for n := 0 to |rs|
      invariant if found then IsPick(rs, n, cur, k) else NoCountries(rs, n)
    {
      if found {
        PickStep(rs, n, cur, k);
      }
      if rs[n].status.NoCountry? {
        continue;
      }
      if !found {
        PickFirst(rs, n, cur);
        found, k := true, n;
      } else if TakesOver(rs[n], rs[k], cur) {
        k := n;
      }
    }
  }

  /** The pick is determined by the records and the one in effect, has the highest score there is, and keeps
      the current code if a record of that code and status is still among the best. */
  lemma PickIs(rs: seq<Record>, cur: Option<Record>, k: nat, j: nat)
    requires IsPick(rs, |rs|, cur, k)
    ensures k < |rs| && forall i :: 0 <= i < |rs| ==> Score(rs[i].status) <= Score(rs[k].status)
    ensures (exists i :: Preferred(rs, |rs|, cur, i)) ==>
      cur.Some? && rs[k].alpha2 == cur.value.alpha2 && rs[k].status == cur.value.status
    ensures IsPick(rs, |rs|, cur, j) ==> j == k
  {
  }

  // The record that takes effect, given the one in effect so far.
  ghost function PickOf(rs: seq<Record>, cur: Option<Record>): Option<Record> {
    if exists k: nat :: IsPick(rs, |rs|, cur, k) then
      var k: nat :| IsPick(rs, |rs|, cur, k);
      assert Best(rs, |rs|, k);
      Some(rs[k])
    else None
  }

  lemma PickOfIs(rs: seq<Record>, cur: Option<Record>, found: bool, k: nat)
    requires if found then IsPick(rs, |rs|, cur, k) else NoCountries(rs, |rs|)
    ensures found ==> k < |rs|
    ensures PickOf(rs, cur) == if found then Some(rs[k]) else None
  {
    if found {
      assert Best(rs, |rs|, k);
      var j: nat :| IsPick(rs, |rs|, cur, j) && PickOf(rs, cur) == Some(rs[j]);
      PickIs(rs, cur, k, j);
    }
  }

  /** Choosing again, with the pick in effect and the same records, gives the same plan: no change. */
  lemma PickAgain(t: Tables, rs: seq<Record>, cur: Option<Record>, k: nat, j: nat)
    requires forall r :: r in rs ==> WfRecord(t, r)
    requires IsPick(rs, |rs|, cur, k) && IsPick(rs, |rs|, Some(rs[k]), j)
    ensures rs[j].plan == rs[k].plan && rs[j].alpha2 == rs[k].alpha2 && rs[j].status == rs[k].status
  {
    assert Preferred(rs, |rs|, Some(rs[k]), k);
    assert rs[k] in rs && rs[j] in rs;
  }
}
