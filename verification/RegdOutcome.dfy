/**
 What the choice among the driver's requests comes to: country elements come before the user, and the user before
 the initial plan, unless a request applies always; and the status is that of what applies.
 */
module RegdOutcome {
  import opened Basics
  import opened RegdTypes
  import E = RegdEngine
  import L = RegdRequests
  import S = RegdSelect

  ghost predicate FromCountry(reqs: seq<Req>) {
    exists r :: r in reqs && r.inr == BY_COUNTRY_IE
  }

  // The list of a driver: the initial request, the user's if there is one, and requests of country elements.
  ghost predicate Listed(reqs: seq<Req>, init: Plan, user: Option<Plan>) {
    E.IsBase(L.Others(reqs), init, user) && L.Distinct(reqs)
  }

  lemma OriginsAre(reqs: seq<Req>, init: Plan, user: Option<Plan>, r: Req)
    requires Listed(reqs, init, user) && r in reqs
    ensures r.src == SRC_RTK_PRIV
    ensures r.inr == BY_INIT || r.inr == BY_USER || r.inr == BY_COUNTRY_IE
    ensures r.inr == BY_INIT ==> r.plan == init
    ensures r.inr == BY_USER ==> user == Some(r.plan)
  {
    var i :| 0 <= i < |reqs| && reqs[i] == r;
    E.OneSource(reqs, init, user, i);
    if !L.Cie(r) { E.OthersIn(reqs, r); }
  }

  lemma BaseThere(reqs: seq<Req>, init: Plan, user: Option<Plan>)
    requires Listed(reqs, init, user)
    ensures exists r :: r in reqs && r.inr == BY_INIT
    ensures user.Some? ==> exists r :: r in reqs && r.inr == BY_USER
  {
    var o := L.Others(reqs);
    E.OthersIn(reqs, o[0]);
    if user.Some? { E.OthersIn(reqs, o[1]); }
  }

  lemma TopIs(reqs: seq<Req>, init: Plan, user: Option<Plan>, n: nat)
    requires Listed(reqs, init, user) && n <= BY_COUNTRY_IE
    ensures S.TopSrc(reqs, SRC_RTK_PRIV)
    ensures S.TopInr(reqs, SRC_RTK_PRIV, n) <==>
      n == if FromCountry(reqs) then BY_COUNTRY_IE else if user.Some? then BY_USER else BY_INIT
  {
    BaseThere(reqs, init, user);
    forall r | r in reqs
      ensures r.src == SRC_RTK_PRIV && (r.inr == BY_INIT || (r.inr == BY_USER && user.Some?) || r.inr == BY_COUNTRY_IE)
    {
      OriginsAre(reqs, init, user, r);
    }
  }

  /** In a list whose marks are up to date, the requests of country elements apply; the user's applies if there are
      none of those, or always; the initial one if there is no other, or always. */
  lemma WhoApplies(reqs: seq<Req>, init: Plan, user: Option<Plan>, always: S.Always, st: S.Status, r: Req)
    requires Listed(reqs, init, user) && S.Selected(reqs, always, reqs, st) && r in reqs
    ensures r.inr == 2 || r.inr == 1 || r.inr == 0
    ensures r.inr == 2 ==> r.applied
    ensures r.inr == 1 ==> (r.applied <==> !FromCountry(reqs) || always.user)
    ensures r.inr == 0 ==> (r.applied <==> (!FromCountry(reqs) && user.None?) || always.init)
  {
    OriginsAre(reqs, init, user, r);
    TopIs(reqs, init, user, r.inr);
    var i :| 0 <= i < |reqs| && reqs[i] == r;
    assert S.Applies(reqs, always, reqs[i]) <==> reqs[i].applied;
  }

  // All that applies has the plan p.
  ghost predicate OnlyPlan(reqs: seq<Req>, p: Plan) {
    forall r :: r in reqs && r.applied ==> r.plan == p
  }

  lemma OnePlanStatus(reqs: seq<Req>, st: S.Status, p: Plan)
    requires S.SomeApplied(reqs) && S.Summarises(st, reqs) && OnlyPlan(reqs, p)
    ensures st.alpha2 == p.alpha2 && st.domain == p.domain && st.proto == p.proto
  {
    var r :| r in reqs && r.applied;
    assert r.plan == p;
    forall x ensures x in st.proto <==> x in p.proto { }
  }

  /** Unless a request applies always, the status is that of the country elements' plan if they agree on one, else of
      the user's plan, and without either of the initial plan. */
  lemma StatusIs(reqs: seq<Req>, init: Plan, user: Option<Plan>, st: S.Status, p: Plan)
    requires Listed(reqs, init, user) && S.Selected(reqs, S.Always(false, false), reqs, st)
    requires if FromCountry(reqs) then forall r :: r in reqs && r.inr == BY_COUNTRY_IE ==> r.plan == p
             else p == if user.Some? then user.value else init
    ensures st.alpha2 == p.alpha2 && st.domain == p.domain && st.proto == p.proto
  {
    forall r | r in reqs && r.applied ensures r.plan == p {
      WhoApplies(reqs, init, user, S.Always(false, false), st, r);
      OriginsAre(reqs, init, user, r);
    }
    BaseThere(reqs, init, user);
    OnePlanStatus(reqs, st, p);
  }

  /** Country elements from different plans: the code is that of an intersection, and the domain is unspecified if the
      domains differ. */
  lemma IntersectedStatus(reqs: seq<Req>, init: Plan, user: Option<Plan>, st: S.Status, r: Req, q: Req)
    requires Listed(reqs, init, user) && S.Selected(reqs, S.Always(false, false), reqs, st)
    requires r in reqs && q in reqs && r.inr == q.inr == BY_COUNTRY_IE
    ensures r.plan.alpha2 != q.plan.alpha2 ==> st.alpha2 == "98"
    ensures r.plan.domain != q.plan.domain ==> st.alpha2 == "98" && st.domain == 0xFF
    ensures st.proto <= r.plan.proto * q.plan.proto
  {
    WhoApplies(reqs, init, user, S.Always(false, false), st, r);
    WhoApplies(reqs, init, user, S.Always(false, false), st, q);
  }

  // The status has the code, domain and protocols of the plan.
  predicate Shows(st: S.Status, p: Plan) {
    st.alpha2 == p.alpha2 && st.domain == p.domain && st.proto == p.proto
  }

  /** From the records to the status: a driver that follows one country and has acted upon the last change shows the
      plan of a record of first choice, if country elements count and some record has a country; otherwise the plan
      that the user asked for last, or else the initial one. */
  lemma ShownCountry(ctl: E.RfCtl)
    requires ctl.Valid() && ctl.UpToDate() && ctl.always == S.Always(false, false) && !ctl.intersect
    ensures var some := exists i :: 0 <= i < |ctl.cisr| && !ctl.cisr[i].status.NoCountry?;
      if E.Listens(ctl.mode, ctl.disabledSw, ctl.Home()) && some
      then exists k: nat :: E.FirstChoice(ctl.cisr, k) && Shows(ctl.status, ctl.cisr[k].plan)
      else Shows(ctl.status, if ctl.user.Some? then ctl.user.value else ctl.init)
  {
    var reqs := ctl.list.reqs;
    ctl.ValidFollows();
    if FromCountry(reqs) {
      var r :| r in reqs && r.inr == BY_COUNTRY_IE;
      var k: nat :| E.FirstChoice(ctl.cisr, k) && ctl.cisr[k].plan == r.plan;
      StatusIs(reqs, ctl.init, ctl.user, ctl.status, r.plan);
    } else {
      StatusIs(reqs, ctl.init, ctl.user, ctl.status, if ctl.user.Some? then ctl.user.value else ctl.init);
    }
  }
}
