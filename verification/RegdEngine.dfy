/**
 The handling of regulatory requests by the driver (rtw_chplan.c): user requests, country elements received
 on the links, and the choice of the requests that apply.  The requests derived from country elements
 follow the records through every early exit.
 */
module RegdEngine {
  import opened Basics
  import opened RegdTypes
  import opened CountrySelect
  import L = RegdRequests
  import S = RegdSelect

  datatype CisMode = Disable | Enable | EnableWorldWide

  // The bits of confs.set_types: the mode, the flags, anything else.
  datatype Confs = Confs(mode: bool, flags: bool, other: bool)

  predicate Any(c: Confs) {
    c.mode || c.flags || c.other
  }

  // accepted: the domain code of the request is valid; plan: the plan asked for, if any;
  // otherSet, otherChanges: whether the request sets other configuration, and whether that changes anything
  datatype UserParam = UserParam(accepted: bool, plan: Option<Plan>, mode: Option<CisMode>, intersect: Option<bool>,
                                 otherSet: bool, otherChanges: bool)

  // ----- the plans that the records ask for

  function CountryPlans(rs: seq<Record>): seq<Plan> {
    if rs == [] then [] else
      var front, last := rs[..|rs| - 1], rs[|rs| - 1];
      if last.status.NoCountry? then CountryPlans(front) else CountryPlans(front) + [last.plan]
  }

  // Every recorded country under CISF_INTERSECT, the one in effect otherwise, none when disabled.
  function Target(enabled: bool, intersect: bool, rs: seq<Record>, eff: Option<Record>): seq<Plan> {
    if !enabled then []
    else if intersect then CountryPlans(rs)
    else if eff.Some? then [eff.value.plan] else []
  }

  // Records with the same plans ask for the same.
  lemma {:induction false} SamePlans(rs: seq<Record>, rs2: seq<Record>)
    requires |rs| == |rs2|
    requires forall i :: 0 <= i < |rs| ==> Consistent(rs[i]) && Consistent(rs2[i]) && rs[i].plan == rs2[i].plan
    ensures CountryPlans(rs) == CountryPlans(rs2)
  {
    if rs != [] {
      var n := |rs| - 1;
      SamePlans(rs[..n], rs2[..n]);
    }
  }

  // ----- the record in effect

  // eff is in effect over the records rs.
  ghost predicate InEffect(enabled: bool, intersect: bool, rs: seq<Record>, eff: Option<Record>) {
    if enabled && !intersect
    then (if eff.Some? then exists k: nat :: Best(rs, |rs|, k) && rs[k] == eff.value else NoCountries(rs, |rs|))
    else eff.None?
  }

  ghost function NextEffected(enabled: bool, intersect: bool, rs: seq<Record>, cur: Option<Record>): Option<Record> {
    if enabled && !intersect then PickOf(rs, cur) else None
  }

  // ----- what the country requests have to be

  // Country elements count in mode ENABLE, and in mode ENABLE_WW as long as the country is world wide.
  predicate Listens(mode: CisMode, disabledSw: bool, home: string) {
    !disabledSw && !mode.Disable? && (mode.EnableWorldWide? ==> home == "00")
  }

  // How many records have a country with this plan.
  function Records(rs: seq<Record>, p: Plan): nat {
    if rs == [] then 0 else
      var front, last := rs[..|rs| - 1], rs[|rs| - 1];
      Records(front, p) + if !last.status.NoCountry? && last.plan == p then 1 else 0
  }

  // Record k has a country and none is to be preferred: an unknown country comes before one whose plan lacks the
  // operating channel, and that before an applicable one.
  ghost predicate FirstChoice(rs: seq<Record>, k: nat) {
    && k < |rs| && !rs[k].status.NoCountry?
    && (forall i :: 0 <= i < |rs| && rs[i].status.Unknown? ==> rs[k].status.Unknown?)
    && (forall i :: 0 <= i < |rs| && rs[i].status.OpchNoexist? ==> !rs[k].status.Applicable?)
  }

  // The country requests of the list follow the records: none when country elements do not count; one for each
  // plan on record, counting its records, under intersection; and otherwise one for a record of first choice.
  ghost predicate Follows(reqs: seq<Req>, mode: CisMode, disabledSw: bool, home: string, intersect: bool,
                          rs: seq<Record>) {
    if !Listens(mode, disabledSw, home) then
      forall r :: r in reqs ==> r.inr != BY_COUNTRY_IE
    else if intersect then
      && (forall r :: r in reqs && r.inr == BY_COUNTRY_IE ==> r.refCnt == Records(rs, r.plan) > 0)
      && (forall i :: 0 <= i < |rs| && !rs[i].status.NoCountry? ==>
            exists r :: r in reqs && r.inr == BY_COUNTRY_IE && r.plan == rs[i].plan)
    else
      && (forall r :: r in reqs && r.inr == BY_COUNTRY_IE ==>
            r.refCnt == 1 && exists k: nat :: FirstChoice(rs, k) && rs[k].plan == r.plan)
      && (forall i :: 0 <= i < |rs| && !rs[i].status.NoCountry? ==>
            exists r :: r in reqs && r.inr == BY_COUNTRY_IE)
      && (forall r, q :: r in reqs && q in reqs && r.inr == q.inr == BY_COUNTRY_IE ==> r.plan == q.plan)
  }

  lemma {:induction false} CountryPlansCount(rs: seq<Record>, p: Plan)
    ensures multiset(CountryPlans(rs))[p] == Records(rs, p)
  {
    if rs != [] {
      CountryPlansCount(rs[..|rs| - 1], p);
    }
  }

  lemma {:induction false} RecordCounts(rs: seq<Record>, i: nat)
    requires i < |rs| && !rs[i].status.NoCountry?
    ensures Records(rs, rs[i].plan) > 0
  {
    var n := |rs| - 1;
    if i < n {
      RecordCounts(rs[..n], i);
    }
  }

  lemma RequestCounts(reqs: seq<Req>, rs: seq<Record>, r: Req)
    requires L.Mirrors(reqs, multiset(CountryPlans(rs))) && r in reqs && r.inr == BY_COUNTRY_IE
    ensures r.refCnt == Records(rs, r.plan) && r.refCnt > 0
  {
    CountryPlansCount(rs, r.plan);
  }

  lemma RecordIsAsked(reqs: seq<Req>, rs: seq<Record>, i: nat)
    requires L.Mirrors(reqs, multiset(CountryPlans(rs))) && i < |rs| && !rs[i].status.NoCountry?
    ensures exists r :: r in reqs && r.inr == BY_COUNTRY_IE && r.plan == rs[i].plan
  {
    CountryPlansCount(rs, rs[i].plan);
    RecordCounts(rs, i);
    L.CiePlansIs(reqs);
    assert rs[i].plan in multiset(CountryPlans(rs));
  }

  lemma FollowsAll(reqs: seq<Req>, rs: seq<Record>)
    requires L.Mirrors(reqs, multiset(CountryPlans(rs)))
    ensures forall r :: r in reqs && r.inr == BY_COUNTRY_IE ==> r.refCnt == Records(rs, r.plan) > 0
    ensures forall i :: 0 <= i < |rs| && !rs[i].status.NoCountry? ==>
      exists r :: r in reqs && r.inr == BY_COUNTRY_IE && r.plan == rs[i].plan
  {
    forall r | r in reqs && r.inr == BY_COUNTRY_IE ensures r.refCnt == Records(rs, r.plan) > 0 {
      RequestCounts(reqs, rs, r);
    }
    forall i | 0 <= i < |rs| && !rs[i].status.NoCountry?
      ensures exists r :: r in reqs && r.inr == BY_COUNTRY_IE && r.plan == rs[i].plan
    {
      RecordIsAsked(reqs, rs, i);
    }
  }

  lemma FollowsOne(reqs: seq<Req>, rs: seq<Record>, eff: Option<Record>)
    requires InEffect(true, false, rs, eff) && L.Mirrors(reqs, multiset(EffectedPlans(eff)))
    ensures forall r :: r in reqs && r.inr == BY_COUNTRY_IE ==>
      r.refCnt == 1 && exists k: nat :: FirstChoice(rs, k) && rs[k].plan == r.plan
    ensures forall i :: 0 <= i < |rs| && !rs[i].status.NoCountry? ==> exists r :: r in reqs && r.inr == BY_COUNTRY_IE
    ensures forall r, q :: r in reqs && q in reqs && r.inr == q.inr == BY_COUNTRY_IE ==> r.plan == q.plan
  {
    L.CiePlansIs(reqs);
    if eff.Some? {
      var k: nat :| Best(rs, |rs|, k) && rs[k] == eff.value;
      assert FirstChoice(rs, k);
      assert eff.value.plan in multiset(EffectedPlans(eff));
      forall r | r in reqs && r.inr == BY_COUNTRY_IE ensures r.refCnt == 1 && r.plan == rs[k].plan {
        assert multiset(EffectedPlans(eff))[r.plan] > 0;
      }
    }
  }

  // ----- marks

  // The lists differ in their marks only.
  ghost predicate SameButMarks(a: seq<Req>, b: seq<Req>) {
    |a| == |b| && forall i :: 0 <= i < |a| ==> a[i] == b[i].(applied := a[i].applied)
  }

  lemma {:induction false} MarksKeep(a: seq<Req>, b: seq<Req>)
    requires SameButMarks(a, b)
    ensures SameButMarks(L.Others(a), L.Others(b)) && L.CiePlans(a) == L.CiePlans(b)
    ensures L.Distinct(b) ==> L.Distinct(a)
  {
    if a != [] {
      var n := |a| - 1;
      MarksKeep(a[..n], b[..n]);
    }
  }

  lemma MarksMirror(a: seq<Req>, b: seq<Req>, t: multiset<Plan>)
    requires SameButMarks(a, b) && L.Mirrors(b, t)
    ensures L.Mirrors(a, t)
  {
    MarksKeep(a, b);
  }

  // ----- requests that are not from country elements

  // The initial request and, if there is one, the user's.
  ghost predicate IsBase(o: seq<Req>, init: Plan, user: Option<Plan>) {
    && |o| == (if user.Some? then 2 else 1)
    && o[0].inr == BY_INIT && o[0].plan == init && o[0].src == SRC_RTK_PRIV
    && (user.Some? ==> o[1].inr == BY_USER && o[1].plan == user.value && o[1].src == SRC_RTK_PRIV)
  }

  lemma {:induction false} OthersIn(reqs: seq<Req>, r: Req)
    ensures r in L.Others(reqs) <==> r in reqs && !L.Cie(r)
  {
    if reqs != [] {
      var n := |reqs| - 1;
      assert reqs == reqs[..n] + [reqs[n]];
      OthersIn(reqs[..n], r);
    }
  }

  // Rewriting a request of another origin.
  lemma {:induction false} RewriteOther(reqs: seq<Req>, i: nat, r: Req) returns (j: nat)
    requires i < |reqs| && !L.Cie(reqs[i]) && !L.Cie(r)
    ensures j < |L.Others(reqs)| && L.Others(reqs)[j] == reqs[i] && L.Others(reqs[i := r]) == L.Others(reqs)[j := r]
    ensures L.CiePlans(reqs[i := r]) == L.CiePlans(reqs)
  {
    var n := |reqs| - 1;
    var front := reqs[..n];
    if i < n {
      j := RewriteOther(front, i, r);
      assert reqs[i := r][..n] == front[i := r];
    } else {
      j := |L.Others(front)|;
      assert reqs[i := r][..n] == front;
    }
  }

  lemma RewriteMirrors(reqs: seq<Req>, i: nat, r: Req, t: multiset<Plan>)
    requires i < |reqs| && !L.Cie(reqs[i]) && !L.Cie(r) && L.Mirrors(reqs, t)
    ensures L.Mirrors(reqs[i := r], t)
  {
    var _ := RewriteOther(reqs, i, r);
  }

  lemma AppendMirrors(reqs: seq<Req>, r: Req, t: multiset<Plan>)
    requires !L.Cie(r) && L.Mirrors(reqs, t)
    ensures L.Mirrors(reqs + [r], t) && L.CiePlans(reqs + [r]) == L.CiePlans(reqs)
  {
  }

  // ----- the state

  class RfCtl {
    const list: L.RequestList
    const disabledSw: bool
    const init: Plan
    var user: Option<Plan>
    var always: S.Always
    var status: S.Status
    var mode: CisMode
    var intersect: bool
    var enabled: bool
    var cisr: seq<Record>
    var effected: Option<Record>

    constructor (list: L.RequestList, init: Plan, disabledSw: bool, links: nat, mode: CisMode, intersect: bool,
                 always: S.Always, status: S.Status)
      requires list.Valid() && list.reqs == [Req(SRC_RTK_PRIV, BY_INIT, init, 0, true)]
      requires status.src == SRC_RTK_PRIV
      ensures Valid() && this.list == list && this.init == init && this.mode == mode && this.intersect == intersect
      ensures cisr == seq(links, _ => Record("\0\0", 0, 0, NoCountry, ZERO_PLAN)) && user.None? && this.status == status
      ensures effected.None?
      ensures this.disabledSw == disabledSw && this.always == always
    {
      this.list, this.init, this.disabledSw, this.always, this.status := list, init, disabledSw, always, status;
      this.mode, this.intersect, user, effected := mode, intersect, None, None;
      cisr := seq(links, _ => Record("\0\0", 0, 0, NoCountry, ZERO_PLAN));
      enabled := Enables(status.src, disabledSw, mode, init.alpha2);
      new;
      NoPlans(cisr);
      InitialList(init);
    }

    ghost function TargetPlans(): seq<Plan>
      reads this`enabled, this`intersect, this`cisr, this`effected
    {
      Target(enabled, intersect, cisr, effected)
    }

    // rtw_rfctl_should_cis_enable
    function ShouldEnable(): bool
      reads this`status, this`mode, this`user
    {
      Enables(status.src, disabledSw, mode, Home())
    }

    // The country that the user asked for, or else the initial one.
    function Home(): string
      reads this`user
    {
      if user.Some? then user.value.alpha2 else init.alpha2
    }

    ghost predicate RecordsOk()
      reads this`cisr
    {
      forall i :: 0 <= i < |cisr| ==> Consistent(cisr[i])
    }

    ghost predicate ListOk()
      reads this`user, this`status, list
    {
      list.Valid() && IsBase(L.Others(list.reqs), init, user) && status.src == SRC_RTK_PRIV
    }

    /** Valid: the country requests are exactly the target, with its counts; the record in effect is a best
        one of those on record; and country elements are enabled exactly when they should be. */
    ghost predicate Valid()
      reads this, list
    {
      && ListOk() && RecordsOk()
      && L.Mirrors(list.reqs, multiset(TargetPlans()))
      && InEffect(enabled, intersect, cisr, effected)
      && enabled == ShouldEnable()
    }

    /** A valid driver follows the records in the way that the mode asks for. */
    lemma ValidFollows()
      requires Valid()
      ensures Follows(list.reqs, mode, disabledSw, Home(), intersect, cisr)
    {
      var reqs := list.reqs;
      MirrorSet(reqs, TargetPlans());
      L.CiePlansIs(reqs);
      if !Listens(mode, disabledSw, Home()) {
        assert TargetPlans() == [];
      } else if intersect {
        FollowsAll(reqs, cisr);
      } else {
        FollowsOne(reqs, cisr, effected);
      }
    }

    // rtw_chplan_update_per_link_cisr: the record of the links from lo up to hi
    method UpdatePerLinkCisr(lo: nat, hi: nat, r: Record) returns (changed: bool)
      requires lo <= hi <= |cisr| && RecordsOk() && Consistent(r)
      modifies this`cisr
      ensures RecordsOk() && cisr == Recorded(old(cisr), lo, hi, r)
      ensures !changed ==> cisr == old(cisr) || (intersect && CountryPlans(cisr) == CountryPlans(old(cisr)))
      ensures !intersect ==> (changed <==> cisr != old(cisr))
    {
      changed := false;
      var k := lo;
      while k < hi
        invariant lo <= k <= hi && forall i :: lo <= i < k ==> cisr[i] == r
      {
        if cisr[k] != r {
          break;
        }
        k := k + 1;
      }
      var new' := cisr[..lo] + seq(hi - lo, _ => r) + cisr[hi..];
      if k >= hi {
        assert new' == cisr;
        return;
      }
      var ori := cisr;
      cisr := new';
      assert cisr[k] == r;
      if intersect {
        k := lo;
        while k < hi
          invariant lo <= k <= hi && forall i :: lo <= i < k ==> ori[i].plan == r.plan
        {
          if ori[k].plan != r.plan {
            break;
          }
          k := k + 1;
        }
        if k >= hi {
          SamePlans(cisr, ori);
          return;
        }
      }
      changed := true;
    }

    // rtw_chplan_select_effected_per_link_cisr
    method SelectEffected() returns (changed: bool)
      modifies this`effected
      ensures if effected.Some? then exists k: nat :: Best(cisr, |cisr|, k) && cisr[k] == effected.value
              else NoCountries(cisr, |cisr|)
      ensures changed <==> Target(true, false, cisr, effected) != Target(true, false, cisr, old(effected))
      ensures effected == PickOf(cisr, old(effected))
    {
      var found, k := Select(cisr, effected);
      PickOfIs(cisr, effected, found, k);
      changed := effected.Some? != found;
      if found {
        PickIs(cisr, effected, k, k);
        assert Best(cisr, |cisr|, k);
        if effected.Some? {
          changed := effected.value.plan != cisr[k].plan;
        }
        effected := Some(cisr[k]);
      } else {
        effected := None;
      }
    }

    // rtw_chplan_update_effected_cisr
    method UpdateEffected() returns (changed: bool)
      modifies this`effected
      ensures InEffect(enabled, intersect, cisr, effected)
      ensures effected == NextEffected(enabled, intersect, cisr, old(effected))
      ensures !changed && !intersect ==> TargetPlans() == EffectedPlans(old(effected))
    {
      if enabled && !intersect {
        changed := SelectEffected();
      } else {
        changed := effected.Some?;
        effected := None;
      }
    }

    // rtw_rfctl_update_cis_enabled
    method UpdateEnabled()
      modifies this`enabled
      ensures enabled == ShouldEnable()
    {
      var e := ShouldEnable();
      if enabled != e {
        enabled := e;
      }
    }
 
    /** The part of rtw_chplan_rtk_priv_req_prehdl_country_ie from the choice of the record in effect on.
        `was` is what the list mirrors; the early exit is taken only if that is still the target. */
    method FollowRecords(confs: Confs, ghost was: seq<Plan>) returns (changed: bool, left: Confs)
      requires ListOk() && RecordsOk() && L.Mirrors(list.reqs, multiset(was)) && enabled == ShouldEnable()
      requires !intersect && !confs.mode && !confs.flags ==> was == EffectedPlans(effected)
      modifies this`effected, list
      ensures Valid() && effected == NextEffected(enabled, intersect, cisr, old(effected))
      ensures changed <==> L.CiePlans(list.reqs) != old(L.CiePlans(list.reqs))
      ensures left == Confs(false, false, confs.other)
    {
      var confsChange := confs.mode || confs.flags;
      left := Confs(false, false, confs.other);
      var effectedChanged := UpdateEffected();
      if !effectedChanged && !intersect && !confsChange {
        changed := false;
        return;
      }
      var plans := Target(enabled, intersect, cisr, effected);
      changed := list.Reconcile(plans);
    }

    // rtw_chplan_rtk_priv_req_prehdl_country_ie for a country element received on the links from lo up to hi
    method CountryIe(lo: nat, hi: nat, r: Record) returns (changed: bool)
      requires Valid() && lo <= hi <= |cisr| && Consistent(r)
      modifies this`cisr, this`effected, list
      ensures Valid() && cisr == Recorded(old(cisr), lo, hi, r)
      ensures changed <==> L.CiePlans(list.reqs) != old(L.CiePlans(list.reqs))
    {
      ghost var was := TargetPlans();
      var recordChanged := UpdatePerLinkCisr(lo, hi, r);
      if !recordChanged {
        changed := false;
        return;
      }
      var left;
      changed, left := FollowRecords(Confs(false, false, false), was);
    }

    // The plan of the user's request, written through user_req
    method RewriteUser(p: Plan, ghost was: seq<Plan>)
      requires ListOk() && user.Some? && L.Mirrors(list.reqs, multiset(was))
      modifies this`user, list
      ensures ListOk() && user == Some(p) && L.Mirrors(list.reqs, multiset(was))
      ensures L.CiePlans(list.reqs) == old(L.CiePlans(list.reqs))
    {
      OthersIn(list.reqs, L.Others(list.reqs)[1]);
      var i := 0;
      while list.reqs[i].inr != BY_USER
        invariant i < |list.reqs| && exists j :: i <= j < |list.reqs| && list.reqs[j].inr == BY_USER
        decreases |list.reqs| - i
      {
        i := i + 1;
      }
      var r := list.reqs[i].(plan := p);
      RewriteMirrors(list.reqs, i, r, multiset(was));
      ghost var j := RewriteOther(list.reqs, i, r);
      list.reqs := list.reqs[i := r];
      user := Some(p);
    }

    // The user's request: there is at most one
    method TakeUserPlan(p: Plan, ghost was: seq<Plan>) returns (changed: bool)
      requires ListOk() && L.Mirrors(list.reqs, multiset(was))
      modifies this`user, list
      ensures ListOk() && user == Some(p) && (changed <==> user != old(user))
      ensures L.Mirrors(list.reqs, multiset(was)) && L.CiePlans(list.reqs) == old(L.CiePlans(list.reqs))
    {
      changed := user != Some(p);
      if user.None? {
        var r := Req(SRC_RTK_PRIV, BY_USER, p, 0, false);
        AppendMirrors(list.reqs, r, multiset(was));
        L.OthersAppend(list.reqs, r);
        list.Insert(r);
        user := Some(p);
      } else if user.value != p {
        RewriteUser(p, was);
      }
    }

    // rtw_chplan_rtk_priv_req_prehdl_user
    method PrehdlUser(u: UserParam, ghost was: seq<Plan>) returns (ret: bool, confs: Confs)
      requires ListOk() && L.Mirrors(list.reqs, multiset(was))
      modifies this`user, this`mode, this`intersect, list
      ensures ListOk() && L.Mirrors(list.reqs, multiset(was)) && L.CiePlans(list.reqs) == old(L.CiePlans(list.reqs))
      ensures user == (if u.accepted && u.plan.Some? then u.plan else old(user))
      ensures mode == (if u.accepted && u.mode.Some? then u.mode.value else old(mode))
      ensures intersect == (if u.accepted && u.intersect.Some? then u.intersect.value else old(intersect))
      ensures confs == if u.accepted then Confs(mode != old(mode), intersect != old(intersect), u.otherChanges)
                       else Confs(u.mode.Some?, u.intersect.Some?, u.otherSet)
      ensures ret <==> user != old(user) || Any(confs)
    {
      if !u.accepted {
        confs := Confs(u.mode.Some?, u.intersect.Some?, u.otherSet);
        ret := Any(confs);
        return;
      }
      ret := false;
      if u.plan.Some? {
        ret := TakeUserPlan(u.plan.value, was);
      }
      confs := Confs(u.mode.Some? && u.mode.value != mode,
                     u.intersect.Some? && u.intersect.value != intersect, u.otherChanges);
      if confs.mode {
        mode := u.mode.value;
      }
      if confs.flags {
        intersect := u.intersect.value;
      }
      ret := ret || Any(confs);
    }

    // A new user plan that the request puts into the list stays without effect, as can be told before the
    // request: nothing else is configured, and either the intersection flag changes and the plans wanted
    // before and after are the same, or it does not, country elements get enabled or disabled, and no
    // record has a country.
    ghost predicate Drops(u: UserParam)
      reads this
    {
      && u.accepted && u.plan.Some? && u.plan != user && !u.otherChanges
      && var newMode := if u.mode.Some? then u.mode.value else mode;
         var newIntersect := if u.intersect.Some? then u.intersect.value else intersect;
         var newEnabled := Enables(status.src, disabledSw, newMode, u.plan.value.alpha2);
         if newIntersect != intersect
         then
           var newEffected := NextEffected(newEnabled, newIntersect, cisr, effected);
           PlanSet(TargetPlans()) == PlanSet(Target(newEnabled, newIntersect, cisr, newEffected))
         else newEnabled != enabled && NoCountries(cisr, |cisr|)
    }

    /** rtw_chplan_req_prehdl for a user's request: the records are followed through every change of mode, flags
        and user plan, and a changed user plan is not acted upon if and only if `Drops` held before. */
    method PrehdlUserRequest(u: UserParam) returns (act: bool)
      requires Valid()
      modifies this`user, this`mode, this`intersect, this`enabled, this`effected, list
      ensures Valid() && AskedNow() == AskedByUser(old(AskedNow()), u)
      ensures user != old(user) && !act <==> old(Drops(u))
      ensures L.CiePlans(list.reqs) != old(L.CiePlans(list.reqs)) ==> act
      ensures act <==> ActsUpon(u, old(AskedNow()), old(enabled), old(L.CiePlans(list.reqs)))
    {
      ghost var target0, enabled0, intersect0, effected0 := TargetPlans(), enabled, intersect, effected;
      MirrorSet(list.reqs, target0);
      act := HandleUserRequest(u);
      MirrorSet(list.reqs, TargetPlans());
      if intersect == intersect0 && enabled != enabled0 {
        FlipChanges(enabled0, intersect, cisr, effected0, effected);
      }
    }

    // A request is acted upon: it asks for something, and unless it sets the intersection flag or has switched country
    // elements on or off, or changes other configuration besides, that is enough; else a country request came or went.
    ghost predicate ActsUpon(u: UserParam, was: Asked, wasEnabled: bool, plans: set<Plan>)
      reads this, list
    {
      var flags := if u.accepted then intersect != was.intersect else u.intersect.Some?;
      var modes := if u.accepted then mode != was.mode else u.mode.Some?;
      var other := if u.accepted then u.otherChanges else u.otherSet;
      && (user != was.user || modes || flags || other)
      && ((!flags && enabled == wasEnabled) || other || L.CiePlans(list.reqs) != plans)
    }

    method HandleUserRequest(u: UserParam) returns (act: bool)
      requires Valid()
      modifies this`user, this`mode, this`intersect, this`enabled, this`effected, list
      ensures Valid() && user == (if u.accepted && u.plan.Some? then u.plan else old(user))
      ensures mode == (if u.accepted && u.mode.Some? then u.mode.value else old(mode))
      ensures intersect == (if u.accepted && u.intersect.Some? then u.intersect.value else old(intersect))
      ensures intersect != old(intersect) ==> effected == NextEffected(enabled, intersect, cisr, old(effected))
      ensures L.CiePlans(list.reqs) != old(L.CiePlans(list.reqs)) ==> act
      ensures act <==> ActsUpon(u, old(AskedNow()), old(enabled), old(L.CiePlans(list.reqs)))
    {
      var before := enabled;
      ghost var was := TargetPlans();
      var ret, confs := PrehdlUser(u, was);
      act := FollowUser(ret, confs, before, was);
    }

    // The part of rtw_chplan_req_prehdl after the user's request is in place; before: whether country elements were
    // enabled
    method FollowUser(ret: bool, confs: Confs, before: bool, ghost was: seq<Plan>) returns (act: bool)
      requires ListOk() && RecordsOk() && L.Mirrors(list.reqs, multiset(was)) && enabled == before
      requires !confs.flags ==>
        InEffect(before, intersect, cisr, effected) && was == Target(before, intersect, cisr, effected)
      requires !ret ==> !confs.flags && before == ShouldEnable()
      modifies this`enabled, this`effected, list
      ensures Valid()
      ensures ret && confs.flags ==> effected == NextEffected(enabled, intersect, cisr, old(effected))
      ensures act <==>
        && ret
        && (!(confs.flags || enabled != before) || confs.other || L.CiePlans(list.reqs) != old(L.CiePlans(list.reqs)))
      ensures L.CiePlans(list.reqs) != old(L.CiePlans(list.reqs)) ==> ret && (confs.flags || enabled != before)
    {
      act := ret;
      if !ret {
        return;
      }
      UpdateEnabled();
      if confs.flags || before != enabled {
        var changed, left := FollowRecords(confs, was);
        if !changed && !Any(left) {
          act := false;
        }
      }
    }

    // The tail of rtw_set_chplan_hdl: choose what applies
    method Choose(ghost was: seq<Plan>)
      requires ListOk() && L.Mirrors(list.reqs, multiset(was))
      modifies this`status, list
      ensures ListOk() && L.Mirrors(list.reqs, multiset(was)) && L.CiePlans(list.reqs) == old(L.CiePlans(list.reqs))
      ensures SameButMarks(list.reqs, old(list.reqs)) && UpToDate()
    {
      var reqs := list.reqs;
      var marked, st := S.Select(reqs, always, status);
      Chosen(reqs, init, user, multiset(was), always, marked, st);
      S.SelectedAgain(reqs, always, marked, st);
      list.reqs := marked;
      status := st;
    }

    method Apply()
      requires Valid()
      modifies this`status, this`enabled, list
      ensures Valid() && L.CiePlans(list.reqs) == old(L.CiePlans(list.reqs))
      ensures SameButMarks(list.reqs, old(list.reqs)) && UpToDate()
    {
      ghost var was := TargetPlans();
      Choose(was);
      assert enabled == ShouldEnable();
      UpdateEnabled();
      assert TargetPlans() == was;
    }

    // The marks and the summary are those of the requests in the list.
    ghost predicate UpToDate()
      reads this`always, this`status, list
    {
      S.Selected(list.reqs, always, list.reqs, status)
    }

    // What was asked of the driver.
    ghost function AskedNow(): Asked
      reads this`cisr, this`user, this`mode, this`intersect
    {
      Asked(cisr, user, mode, intersect)
    }

    // rtw_set_chplan_hdl
    method SetUser(u: UserParam) returns (act: bool)
      requires Valid()
      modifies this, list
      ensures Valid() && (act ==> UpToDate()) && (!act ==> status == old(status))
      ensures AskedNow() == AskedByUser(old(AskedNow()), u) && always == old(always)
      ensures user != old(user) && !act <==> old(Drops(u))
      ensures act <==> ActsUpon(u, old(AskedNow()), old(enabled), old(L.CiePlans(list.reqs)))
    {
      act := PrehdlUserRequest(u);
      if act {
        Apply();
      }
    }

    method SetCountryIe(lo: nat, hi: nat, r: Record) returns (act: bool)
      requires Valid() && lo <= hi <= |cisr| && Consistent(r)
      modifies this, list
      ensures Valid() && (act ==> UpToDate()) && (!act ==> status == old(status))
      ensures act <==> L.CiePlans(list.reqs) != old(L.CiePlans(list.reqs))
      ensures AskedNow() == old(AskedNow()).(cisr := Recorded(old(cisr), lo, hi, r)) && always == old(always)
    {
      act := CountryIe(lo, hi, r);
      if act {
        Apply();
      }
    }
  }

  // ----- runs

  // The records of the links, and what the user asked for last.
  datatype Asked = Asked(cisr: seq<Record>, user: Option<Plan>, mode: CisMode, intersect: bool)

  function AskedByUser(a: Asked, u: UserParam): Asked {
    if !u.accepted then a
    else a.(user := if u.plan.Some? then u.plan else a.user,
            mode := if u.mode.Some? then u.mode.value else a.mode,
            intersect := if u.intersect.Some? then u.intersect.value else a.intersect)
  }

  // The links from lo up to hi record r.
  function Recorded(rs: seq<Record>, lo: nat, hi: nat, r: Record): seq<Record>
    requires lo <= hi <= |rs|
  {
    rs[..lo] + seq(hi - lo, _ => r) + rs[hi..]
  }

  // A user's request, or a country element (code: the country, if there is one) received on a link or on all;
  // accepts: whether the operating channel is in a plan, as the limits are at that time
  datatype Event =
    | User(u: UserParam)
    | CountryElement(link: Option<nat>, code: Option<string>, band: nat, opch: nat, accepts: Plan -> bool)

  function AskedByEvent(t: Tables, a: Asked, e: Event): Asked {
    match e
    case User(u) => AskedByUser(a, u)
    case CountryElement(link, code, band, opch, accepts) =>
      var r := RecordOf(t, accepts, code, band, opch);
      if link.None? then a.(cisr := Recorded(a.cisr, 0, |a.cisr|, r))
      else if link.value < |a.cisr| then a.(cisr := Recorded(a.cisr, link.value, link.value + 1, r))
      else a
  }

  function AskedAfter(t: Tables, a: Asked, events: seq<Event>): Asked {
    if events == [] then a else AskedByEvent(t, AskedAfter(t, a, events[..|events| - 1]), events[|events| - 1])
  }

  // The event is an accepted request of the user, and says something about a field; or a country element of link l.
  predicate SetsPlan(e: Event) {
    e.User? && e.u.accepted && e.u.plan.Some?
  }

  predicate SetsMode(e: Event) {
    e.User? && e.u.accepted && e.u.mode.Some?
  }

  predicate SetsIntersect(e: Event) {
    e.User? && e.u.accepted && e.u.intersect.Some?
  }

  predicate Heard(e: Event, l: nat) {
    e.CountryElement? && (e.link.None? || e.link.value == l)
  }

  // Event i is the last one of its kind.
  ghost predicate LastOf(events: seq<Event>, i: nat, kind: Event -> bool) {
    i < |events| && kind(events[i]) && forall j :: i < j < |events| ==> !kind(events[j])
  }

  ghost predicate LastHeard(events: seq<Event>, i: nat, l: nat) {
    i < |events| && Heard(events[i], l) && forall j :: i < j < |events| ==> !Heard(events[j], l)
  }

  lemma AskedLinks(t: Tables, a: Asked, events: seq<Event>)
    ensures |AskedAfter(t, a, events).cisr| == |a.cisr|
  {
  }

  /** What is asked of the driver after a run: the plan, mode and flag of the last accepted user request that said
      one, and for each link the record of the last country element that reached it. */
  lemma {:induction false} AskedLast(t: Tables, a: Asked, events: seq<Event>, i: nat)
    requires i < |events|
    ensures LastOf(events, i, SetsPlan) ==> AskedAfter(t, a, events).user == events[i].u.plan
    ensures LastOf(events, i, SetsMode) ==> AskedAfter(t, a, events).mode == events[i].u.mode.value
    ensures LastOf(events, i, SetsIntersect) ==> AskedAfter(t, a, events).intersect == events[i].u.intersect.value
  {
    var n := |events| - 1;
    if i < n { AskedLast(t, a, events[..n], i); }
  }

  lemma {:induction false} HeardLast(t: Tables, a: Asked, events: seq<Event>, i: nat, l: nat)
    requires l < |a.cisr| && LastHeard(events, i, l)
    ensures |AskedAfter(t, a, events).cisr| == |a.cisr|
    ensures var e := events[i];
      AskedAfter(t, a, events).cisr[l] == RecordOf(t, e.accepts, e.code, e.band, e.opch)
  {
    var n := |events| - 1;
    var front, e := AskedAfter(t, a, events[..n]), events[n];
    AskedLinks(t, a, events[..n]);
    LinkStep(t, front, e, l);
    if i < n { HeardLast(t, a, events[..n], i, l); }
  }

  // One event and the record of one link.
  lemma LinkStep(t: Tables, a: Asked, e: Event, l: nat)
    requires l < |a.cisr|
    ensures var b := AskedByEvent(t, a, e);
      && |b.cisr| == |a.cisr|
      && b.cisr[l] == if Heard(e, l) then RecordOf(t, e.accepts, e.code, e.band, e.opch) else a.cisr[l]
  {
  }

  // Without such an event, as before.
  lemma {:induction false} NotAsked(t: Tables, a: Asked, events: seq<Event>, l: nat)
    ensures |AskedAfter(t, a, events).cisr| == |a.cisr|
    ensures (forall e :: e in events ==> !SetsPlan(e)) ==> AskedAfter(t, a, events).user == a.user
    ensures (forall e :: e in events ==> !SetsMode(e)) ==> AskedAfter(t, a, events).mode == a.mode
    ensures (forall e :: e in events ==> !SetsIntersect(e)) ==> AskedAfter(t, a, events).intersect == a.intersect
    ensures l < |a.cisr| && (forall e :: e in events ==> !Heard(e, l)) ==>
      AskedAfter(t, a, events).cisr[l] == a.cisr[l]
  {
    AskedLinks(t, a, events);
    if events != [] {
      var n := |events| - 1;
      NotAsked(t, a, events[..n], l);
      assert events[n] in events && forall e :: e in events[..n] ==> e in events;
    }
  }

  /** After every run of user requests and country elements the driver has what was asked of it, and the country
      requests in its list follow the records in the way that the mode asks for. */
  method Run(ctl: RfCtl, t: Tables, events: seq<Event>)
    requires ctl.Valid() && WfTables(t)
    modifies ctl, ctl.list
    ensures ctl.Valid() && ctl.AskedNow() == AskedAfter(t, old(ctl.AskedNow()), events)
    ensures Follows(ctl.list.reqs, ctl.mode, ctl.disabledSw, ctl.Home(), ctl.intersect, ctl.cisr)
  {
    assert events[..0] == [];
    for i := 0 to |events|
      invariant ctl.Valid() && ctl.AskedNow() == AskedAfter(t, old(ctl.AskedNow()), events[..i])
    {
      assert events[..i + 1][..i] == events[..i];
      Perform(ctl, t, events[i]);
    }
    assert events[..|events|] == events;
    ctl.ValidFollows();
  }

  method Perform(ctl: RfCtl, t: Tables, e: Event)
    requires ctl.Valid() && WfTables(t)
    modifies ctl, ctl.list
    ensures ctl.Valid() && ctl.AskedNow() == AskedByEvent(t, old(ctl.AskedNow()), e)
  {
    match e {
      case User(u) => var _ := ctl.SetUser(u);
      case CountryElement(link, code, band, opch, accepts) =>
        var r := RecordOf(t, accepts, code, band, opch);
        RecordOfIsWf(t, accepts, code, band, opch);
        WfIsConsistent(t, r);
        if link.None? {
          var _ := ctl.SetCountryIe(0, |ctl.cisr|, r);
        } else if link.value < |ctl.cisr| {
          var _ := ctl.SetCountryIe(link.value, link.value + 1, r);
        }
    }
  }

  // A driver in world wide mode that has not seen a country element
  method WorldWideDriver() returns (ctl: RfCtl)
    ensures fresh(ctl) && fresh(ctl.list) && ctl.Valid() && ctl.mode.EnableWorldWide? && !ctl.intersect && ctl.enabled
    ensures NoCountries(ctl.cisr, |ctl.cisr|) && ctl.user.None? && ctl.status.alpha2 == WORLDWIDE
  {
    var world := Plan(WORLDWIDE, 0x7F, 4, 4, 0, {});
    var list := new L.RequestList(Req(SRC_RTK_PRIV, BY_INIT, world, 0, true));
    var status := S.Status(SRC_RTK_PRIV, {BY_INIT}, WORLDWIDE, 0x7F, {});
    ctl := new RfCtl(list, world, false, 1, EnableWorldWide, false, S.Always(false, false), status);
  }

  /** A user's country that is taken and has no effect: with the world wide plan, country elements enabled for
      world wide mode and none received, the request goes into the list and the status stays as it was. */
  method UserRequestDropped(us: Plan) returns (ctl: RfCtl, act: bool)
    requires us.alpha2 != WORLDWIDE
    ensures fresh(ctl) && ctl.Valid() && ctl.user == Some(us) && !act && ctl.status.alpha2 == WORLDWIDE
  {
    ctl := WorldWideDriver();
    act := ctl.PrehdlUserRequest(UserParam(true, Some(us), None, None, false, false));
  }

  // All requests of the list have the one source, so the summary has it too.
  lemma OneSource(reqs: seq<Req>, init: Plan, user: Option<Plan>, i: nat)
    requires IsBase(L.Others(reqs), init, user) && L.Distinct(reqs) && i < |reqs|
    ensures reqs[i].src == SRC_RTK_PRIV
  {
    if !L.Cie(reqs[i]) {
      OthersIn(reqs, reqs[i]);
      BaseSource(L.Others(reqs), init, user, reqs[i]);
    }
  }

  lemma BaseSource(o: seq<Req>, init: Plan, user: Option<Plan>, r: Req)
    requires IsBase(o, init, user) && r in o
    ensures r.src == SRC_RTK_PRIV
  {
  }

  // What choosing does to the list and the source.
  lemma Chosen(reqs: seq<Req>, init: Plan, user: Option<Plan>, t: multiset<Plan>, always: S.Always, marked: seq<Req>,
               st: S.Status)
    requires IsBase(L.Others(reqs), init, user) && L.Mirrors(reqs, t) && S.Selected(reqs, always, marked, st)
    ensures SameButMarks(marked, reqs) && st.src == SRC_RTK_PRIV
    ensures IsBase(L.Others(marked), init, user) && L.Mirrors(marked, t) && L.CiePlans(marked) == L.CiePlans(reqs)
  {
    S.MarksOnly(reqs, always, marked, st);
    MarksKeep(marked, reqs);
    MarksMirror(marked, reqs, t);
    OthersIn(reqs, L.Others(reqs)[0]);
    var i := S.SourceIs(reqs, always, marked, st);
    OneSource(reqs, init, user, i);
  }

  lemma InitialList(init: Plan)
    ensures var reqs := [Req(SRC_RTK_PRIV, BY_INIT, init, 0, true)];
      IsBase(L.Others(reqs), init, None) && L.Mirrors(reqs, multiset{})
  {
  }

  lemma {:induction false} NoPlans(rs: seq<Record>)
    requires forall i :: 0 <= i < |rs| ==> rs[i].status.NoCountry?
    ensures CountryPlans(rs) == []
  {
    if rs != [] { NoPlans(rs[..|rs| - 1]); }
  }

  // rtw_rfctl_should_cis_enable; alpha2: that of the user's request, or else of the initial one
  function Enables(src: nat, disabledSw: bool, mode: CisMode, alpha2: string): bool {
    if src != SRC_RTK_PRIV || disabledSw then false
    else match mode
         case Enable => true
         case EnableWorldWide => alpha2 == WORLDWIDE
         case Disable => false
  }

  ghost function PlanSet(plans: seq<Plan>): set<Plan> {
    set p | p in plans
  }

  lemma MirrorSet(reqs: seq<Req>, plans: seq<Plan>)
    requires L.Mirrors(reqs, multiset(plans))
    ensures L.CiePlans(reqs) == PlanSet(plans)
  {
    L.CiePlansIs(reqs);
    forall p | p in L.CiePlans(reqs) ensures p in plans {
      var r :| r in reqs && L.Cie(r) && r.plan == p;
      L.DeadIs(reqs, multiset(plans), r);
    }
  }

  lemma {:induction false} SomePlans(rs: seq<Record>)
    ensures CountryPlans(rs) == [] <==> NoCountries(rs, |rs|)
  {
    if rs != [] {
      SomePlans(rs[..|rs| - 1]);
    }
  }

  // Enabling or disabling changes the plans wanted unless no record has a country.
  lemma FlipChanges(enabled0: bool, intersect: bool, rs: seq<Record>, eff0: Option<Record>, eff: Option<Record>)
    requires InEffect(enabled0, intersect, rs, eff0) && InEffect(!enabled0, intersect, rs, eff)
    ensures PlanSet(Target(enabled0, intersect, rs, eff0)) == PlanSet(Target(!enabled0, intersect, rs, eff)) <==>
        NoCountries(rs, |rs|)
  {
    SomePlans(rs);
    var a, b := Target(enabled0, intersect, rs, eff0), Target(!enabled0, intersect, rs, eff);
    assert a == [] || b == [];
    if a != [] { assert a[0] in PlanSet(a); }
    if b != [] { assert b[0] in PlanSet(b); }
  }

  function EffectedPlans(eff: Option<Record>): seq<Plan> {
    if eff.Some? then [eff.value.plan] else []
  }
}
