/**
 The list of regulatory requests (rtw_chplan.c).  The requests that come from received country elements are
 reconciled with the countries on record by mark and sweep: their reference counts are cleared, each country
 is added again, and requests that nobody added are dropped.
 */
module RegdRequests {
  import opened RegdTypes

  predicate Cie(r: Req) {
    r.inr == BY_COUNTRY_IE
  }

  // ----- what the list says

  // No country request twice, all from the driver's own source.
  ghost predicate Distinct(reqs: seq<Req>) {
    && (forall i, j :: 0 <= i < j < |reqs| && Cie(reqs[i]) && Cie(reqs[j]) ==> reqs[i].plan != reqs[j].plan)
    && (forall i :: 0 <= i < |reqs| && Cie(reqs[i]) ==> reqs[i].src == SRC_RTK_PRIV)
  }

  // The reference counts are those of the bag t, in which every plan has a request.
  ghost predicate Counts(reqs: seq<Req>, t: multiset<Plan>) {
    && Distinct(reqs)
    && (forall i :: 0 <= i < |reqs| && Cie(reqs[i]) ==> reqs[i].refCnt == t[reqs[i].plan])
    && (forall p :: p in t ==> p in CiePlans(reqs))
  }

  // The country requests are those of the bag t, each once and with its count.
  ghost predicate Mirrors(reqs: seq<Req>, t: multiset<Plan>) {
    Counts(reqs, t) && forall i :: 0 <= i < |reqs| && Cie(reqs[i]) ==> reqs[i].refCnt > 0
  }

  function CiePlans(reqs: seq<Req>): set<Plan> {
    if reqs == [] then {} else
      var front, last := reqs[..|reqs| - 1], reqs[|reqs| - 1];
      if Cie(last) then CiePlans(front) + {last.plan} else CiePlans(front)
  }

  lemma {:induction false} CiePlansIs(reqs: seq<Req>)
    ensures forall p :: p in CiePlans(reqs) <==> exists r :: r in reqs && Cie(r) && r.plan == p
  {
    if reqs != [] {
      var front, last := reqs[..|reqs| - 1], reqs[|reqs| - 1];
      assert reqs == front + [last];
      CiePlansIs(front);
      forall p ensures p in CiePlans(reqs) <==> exists r :: r in reqs && Cie(r) && r.plan == p {
        if Cie(last) && p == last.plan { assert last in reqs; }
      }
    }
  }

  // The requests of other origin, in order.
  function Others(reqs: seq<Req>): seq<Req> {
    if reqs == [] then [] else
      var front, last := reqs[..|reqs| - 1], reqs[|reqs| - 1];
      if Cie(last) then Others(front) else Others(front) + [last]
  }

  lemma OthersAppend(reqs: seq<Req>, r: Req)
    ensures Others(reqs + [r]) == if Cie(r) then Others(reqs) else Others(reqs) + [r]
  {
  }

  lemma {:induction false} OthersUpdate(reqs: seq<Req>, i: nat, r: Req)
    requires i < |reqs| && Cie(reqs[i]) && Cie(r)
    ensures Others(reqs[i := r]) == Others(reqs)
  {
    var n := |reqs| - 1;
    if i < n {
      OthersUpdate(reqs[..n], i, r);
      assert reqs[i := r][..n] == reqs[..n][i := r];
    } else {
      assert reqs[i := r][..n] == reqs[..n];
    }
  }

  // ----- the three passes, as functions of the list

  function Unreferenced(r: Req): Req {
    if Cie(r) then r.(refCnt := 0) else r
  }

  ghost predicate ClearedTo(s: seq<Req>, reqs: seq<Req>, n: nat)
    requires n <= |reqs|
  {
    |s| == |reqs| && forall i :: 0 <= i < |s| ==> s[i] == if i < n then Unreferenced(reqs[i]) else reqs[i]
  }

  lemma ClearedCounts(s: seq<Req>, reqs: seq<Req>)
    requires Distinct(reqs) && ClearedTo(s, reqs, |reqs|)
    ensures Counts(s, multiset{}) && CiePlans(s) == CiePlans(reqs)
  {
  }

  // The request for the plan, or the length of the list.
  ghost predicate IsAt(reqs: seq<Req>, p: Plan, k: nat) {
    && k <= |reqs|
    && (forall i :: 0 <= i < k && Cie(reqs[i]) ==> reqs[i].plan != p)
    && (k < |reqs| ==> Cie(reqs[k]) && reqs[k].plan == p)
  }

  function CieReq(p: Plan): Req {
    Req(SRC_RTK_PRIV, BY_COUNTRY_IE, p, 1, false)
  }

  function AddedAt(reqs: seq<Req>, p: Plan, k: nat): seq<Req>
    requires k <= |reqs|
  {
    if k < |reqs| then reqs[k := reqs[k].(refCnt := reqs[k].refCnt + 1)] else reqs + [CieReq(p)]
  }

  lemma AddedCounts(reqs: seq<Req>, t: multiset<Plan>, p: Plan, k: nat)
    requires Counts(reqs, t) && IsAt(reqs, p, k)
    ensures Counts(AddedAt(reqs, p, k), t + multiset{p})
    ensures Others(AddedAt(reqs, p, k)) == Others(reqs)
    ensures CiePlans(AddedAt(reqs, p, k)) == CiePlans(reqs) + {p}
    ensures k == |reqs| <==> p !in CiePlans(reqs)
  {
    AddedPlans(reqs, p, k);
    AddedRefs(reqs, t, p, k);
    if k < |reqs| {
      OthersUpdate(reqs, k, reqs[k].(refCnt := reqs[k].refCnt + 1));
    } else {
      OthersAppend(reqs, CieReq(p));
    }
  }

  lemma AddedRefs(reqs: seq<Req>, t: multiset<Plan>, p: Plan, k: nat)
    requires Counts(reqs, t) && IsAt(reqs, p, k)
    ensures var s := AddedAt(reqs, p, k);
      && Distinct(s) && forall i :: 0 <= i < |s| && Cie(s[i]) ==> s[i].refCnt == (t + multiset{p})[s[i].plan]
  {
    AddedPlans(reqs, p, k);
  }

  lemma AddedPlans(reqs: seq<Req>, p: Plan, k: nat)
    requires IsAt(reqs, p, k)
    ensures CiePlans(AddedAt(reqs, p, k)) == CiePlans(reqs) + {p}
    ensures k == |reqs| <==> p !in CiePlans(reqs)
  {
    CiePlansIs(AddedAt(reqs, p, k));
    CiePlansIs(reqs);
    var s := AddedAt(reqs, p, k);
    forall q ensures q in CiePlans(s) <==> q in CiePlans(reqs) || q == p {
      if q in CiePlans(s) {
        var i :| 0 <= i < |s| && Cie(s[i]) && s[i].plan == q;
        if i < |reqs| { assert reqs[i] in reqs; }
      }
      if q in CiePlans(reqs) {
        var i :| 0 <= i < |reqs| && Cie(reqs[i]) && reqs[i].plan == q;
        assert s[i] in s;
      }
      assert s[k] in s;
    }
  }

  predicate Dead(r: Req) {
    Cie(r) && r.refCnt == 0
  }

  function Swept(reqs: seq<Req>): (s: seq<Req>)
    ensures |s| <= |reqs|
  {
    if reqs == [] then [] else
      var front, last := reqs[..|reqs| - 1], reqs[|reqs| - 1];
      if Dead(last) then Swept(front) else Swept(front) + [last]
  }

  lemma SweptAppend(done: seq<Req>, r: Req)
    ensures Swept(done + [r]) == if Dead(r) then Swept(done) else Swept(done) + [r]
  {
  }

  lemma {:induction false} SweptHas(reqs: seq<Req>, r: Req)
    ensures r in Swept(reqs) <==> r in reqs && !Dead(r)
  {
    if reqs != [] {
      var n := |reqs| - 1;
      assert reqs == reqs[..n] + [reqs[n]];
      SweptHas(reqs[..n], r);
    }
  }

  lemma {:induction false} SweptOthers(reqs: seq<Req>)
    ensures Others(Swept(reqs)) == Others(reqs)
  {
    if reqs != [] {
      var n := |reqs| - 1;
      SweptOthers(reqs[..n]);
      if !Dead(reqs[n]) {
        OthersAppend(Swept(reqs[..n]), reqs[n]);
      }
    }
  }

  lemma {:induction false} SweptLength(reqs: seq<Req>)
    ensures |Swept(reqs)| == |reqs| <==> forall i :: 0 <= i < |reqs| ==> !Dead(reqs[i])
  {
    if reqs != [] {
      SweptLength(reqs[..|reqs| - 1]);
    }
  }

  lemma {:induction false} SweptDistinct(reqs: seq<Req>)
    requires Distinct(reqs)
    ensures Distinct(Swept(reqs))
  {
    if reqs != [] {
      var n := |reqs| - 1;
      var s := Swept(reqs[..n]);
      SweptDistinct(reqs[..n]);
      if !Dead(reqs[n]) {
        forall i | 0 <= i < |s| && Cie(s[i]) && Cie(reqs[n]) ensures s[i].plan != reqs[n].plan {
          SweptApart(reqs, s[i]);
        }
      }
    }
  }

  lemma SweptApart(reqs: seq<Req>, r: Req)
    requires Distinct(reqs) && reqs != [] && r in Swept(reqs[..|reqs| - 1]) && Cie(r) && Cie(reqs[|reqs| - 1])
    ensures r.plan != reqs[|reqs| - 1].plan
  {
    var n := |reqs| - 1;
    SweptHas(reqs[..n], r);
    var j :| 0 <= j < n && reqs[j] == r;
  }

  // With the counts of t, the requests to drop are those that t does not ask for.
  lemma DeadIs(reqs: seq<Req>, t: multiset<Plan>, r: Req)
    requires Counts(reqs, t) && r in reqs && Cie(r)
    ensures r.refCnt == t[r.plan] && (Dead(r) <==> r.plan !in t)
  {
  }

  lemma SweptPlans(reqs: seq<Req>, t: multiset<Plan>, p: Plan)
    requires Counts(reqs, t)
    ensures p in CiePlans(Swept(reqs)) <==> p in t
  {
    CiePlansIs(Swept(reqs));
    CiePlansIs(reqs);
    if p in CiePlans(Swept(reqs)) {
      var r :| r in Swept(reqs) && Cie(r) && r.plan == p;
      SweptHas(reqs, r);
      DeadIs(reqs, t, r);
    }
    if p in t {
      var r :| r in reqs && Cie(r) && r.plan == p;
      DeadIs(reqs, t, r);
      SweptHas(reqs, r);
    }
  }

  lemma SweptMirrors(reqs: seq<Req>, t: multiset<Plan>)
    requires Counts(reqs, t)
    ensures Mirrors(Swept(reqs), t)
  {
    var s := Swept(reqs);
    SweptDistinct(reqs);
    forall i | 0 <= i < |s| && Cie(s[i]) ensures 0 < s[i].refCnt == t[s[i].plan] {
      assert s[i] in s;
      SweptHas(reqs, s[i]);
      DeadIs(reqs, t, s[i]);
    }
    forall p | p in t ensures p in CiePlans(s) {
      SweptPlans(reqs, t, p);
    }
  }

  lemma SweptShorter(reqs: seq<Req>, t: multiset<Plan>)
    requires Counts(reqs, t)
    ensures |Swept(reqs)| < |reqs| <==> exists p :: p in CiePlans(reqs) && p !in t
  {
    CiePlansIs(reqs);
    SweptLength(reqs);
    if i :| 0 <= i < |reqs| && Dead(reqs[i]) {
      DeadIs(reqs, t, reqs[i]);
      assert reqs[i].plan in CiePlans(reqs);
    }
    if p :| p in CiePlans(reqs) && p !in t {
      var r :| r in reqs && Cie(r) && r.plan == p;
      DeadIs(reqs, t, r);
    }
  }

  // What the sweep is told about a change of the set of country requests.
  lemma ChangeIs(before: set<Plan>, reqs: seq<Req>, plans: seq<Plan>)
    requires Counts(reqs, multiset(plans)) && CiePlans(reqs) == before + (set p | p in plans)
    ensures CiePlans(reqs) != before || |Swept(reqs)| < |reqs| <==> CiePlans(Swept(reqs)) != before
  {
    var t := multiset(plans);
    SweptShorter(reqs, t);
    forall p ensures p in CiePlans(Swept(reqs)) <==> p in plans {
      SweptPlans(reqs, t, p);
    }
    var after := set p | p in plans;
    assert CiePlans(Swept(reqs)) == after;
    if after == before {
      assert CiePlans(reqs) == before;
    } else if CiePlans(reqs) == before {
      var p :| p in before && p !in after;
    }
  }

  // Taking the first of the rest off the list, or over to the part that is kept.
  lemma Unlink(kept: seq<Req>, rest: seq<Req>, s: seq<Req>)
    requires rest != [] && s == kept + rest
    ensures s[|kept|] == rest[0] && s[..|kept|] + s[|kept| + 1..] == kept + rest[1..]
    ensures s == (kept + [rest[0]]) + rest[1..]
  {
  }

  lemma Shift(done: seq<Req>, rest: seq<Req>)
    requires rest != []
    ensures (done + [rest[0]]) + rest[1..] == done + rest
  {
  }

  // ----- the list of the driver

  class RequestList {
    var reqs: seq<Req>
    var num: nat

    ghost predicate Valid()
      reads this
    {
      num == |reqs|
    }

    constructor (init: Req)
      ensures Valid() && reqs == [init]
    {
      reqs, num := [init], 1;
    }

    // rtw_regd_req_list_insert
    method Insert(r: Req)
      requires Valid()
      modifies this
      ensures Valid() && reqs == old(reqs) + [r]
    {
      reqs := reqs + [r];
      num := num + 1;
    }

    // rtw_regd_req_list_clear_ref_cnt_by_inr, for the country requests
    method ClearRefCnt()
      requires Valid()
      modifies this`reqs
      ensures Valid() && ClearedTo(reqs, old(reqs), |old(reqs)|)
      ensures Others(reqs) == old(Others(reqs))
    {
      for i := 0 to |reqs|
        invariant Valid() && |reqs| == |old(reqs)| && ClearedTo(reqs, old(reqs), i) && Others(reqs) == old(Others(reqs))
      {
        if Cie(reqs[i]) {
          OthersUpdate(reqs, i, reqs[i].(refCnt := 0));
          reqs := reqs[i := reqs[i].(refCnt := 0)];
        }
      }
    }

    // rtw_regd_req_list_add_country_ie_req
    method AddCountryIeReq(p: Plan, ghost t: multiset<Plan>) returns (insert: bool)
      requires Valid() && Counts(reqs, t)
      modifies this
      ensures Valid() && Counts(reqs, t + multiset{p}) && Others(reqs) == old(Others(reqs))
      ensures insert <==> p !in old(CiePlans(reqs))
      ensures CiePlans(reqs) == old(CiePlans(reqs)) + {p}
    {
      var k := 0;
      while k < |reqs|
        invariant k <= |reqs| && reqs == old(reqs) && Valid()
        invariant forall i :: 0 <= i < k && Cie(reqs[i]) ==> reqs[i].plan != p
      {
        if Cie(reqs[k]) && reqs[k].plan == p {
          break;
        }
        k := k + 1;
      }
      AddedCounts(reqs, t, p, k);
      insert := k == |reqs|;
      if insert {
        Insert(CieReq(p));
      } else {
        reqs := reqs[k := reqs[k].(refCnt := reqs[k].refCnt + 1)];
      }
    }

    // rtw_regd_req_list_clear_zero_ref_req_by_inr, for the country requests
    method Sweep() returns (del: bool)
      requires Valid()
      modifies this
      ensures Valid() && reqs == Swept(old(reqs)) && (del <==> |reqs| < |old(reqs)|)
    {
      del := false;
      var i := 0;
      ghost var was, done, kept, rest := reqs, [], [], reqs;
      while i < |reqs|
        invariant Valid() && i == |kept| && reqs == kept + rest
        invariant was == done + rest && kept == Swept(done)
        invariant del <==> |kept| < |done|
        decreases |rest|
      {
        Unlink(kept, rest, reqs);
        Shift(done, rest);
        SweptAppend(done, rest[0]);
        if Cie(reqs[i]) && reqs[i].refCnt == 0 {
          reqs := reqs[..i] + reqs[i + 1..];
          num := num - 1;
          del := true;
        } else {
          kept := kept + [rest[0]];
          i := i + 1;
        }
        done, rest := done + [rest[0]], rest[1..];
      }
      assert was == done && reqs == kept;
    }

    /** Mark and sweep: afterwards the country requests are exactly the plans given, each with the number of
        times it was given; the other requests are untouched; a change is reported exactly if the set of
        country requests changed. */
    method Reconcile(plans: seq<Plan>) returns (effected: bool)
      requires Valid() && Distinct(reqs)
      modifies this
      ensures Valid() && Mirrors(reqs, multiset(plans)) && Others(reqs) == old(Others(reqs))
      ensures effected <==> CiePlans(reqs) != old(CiePlans(reqs))
    {
      ghost var before := CiePlans(reqs);
      ClearRefCnt();
      ClearedCounts(reqs, old(reqs));
      effected := AddAll(plans);
      SweptMirrors(reqs, multiset(plans));
      SweptOthers(reqs);
      ChangeIs(before, reqs, plans);
      var del := Sweep();
      effected := effected || del;
    }

    // The loop over the records, after the counts are cleared
    method AddAll(plans: seq<Plan>) returns (effected: bool)
      requires Valid() && Counts(reqs, multiset{})
      modifies this
      ensures Valid() && Counts(reqs, multiset(plans)) && Others(reqs) == old(Others(reqs))
      ensures CiePlans(reqs) == old(CiePlans(reqs)) + (set p | p in plans)
      ensures effected <==> CiePlans(reqs) != old(CiePlans(reqs))
    {
      effected := false;
      ghost var t, added := multiset{}, {};
      ghost var before := CiePlans(reqs);
      for i := 0 to |plans|
        invariant Valid() && Counts(reqs, t) && Others(reqs) == old(Others(reqs))
        invariant t == multiset(plans[..i]) && forall p :: p in added <==> p in t
        invariant CiePlans(reqs) == before + added
        invariant effected <==> !(added <= before)
      {
        Prefix(plans, i);
        var insert := AddCountryIeReq(plans[i], t);
        t, added := t + multiset{plans[i]}, added + {plans[i]};
        effected := effected || insert;
      }
      assert plans[..|plans|] == plans;
      assert added == (set p | p in plans);
    }
  }

  lemma Prefix(plans: seq<Plan>, i: nat)
    requires i < |plans|
    ensures multiset(plans[..i + 1]) == multiset(plans[..i]) + multiset{plans[i]}
  {
    assert plans[..i + 1] == plans[..i] + [plans[i]];
  }
}
