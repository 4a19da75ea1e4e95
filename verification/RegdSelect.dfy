/**
 Which regulatory requests apply, and the summary of those that do (rtw_rfctl_regd_req_sel_and_status_update
 and rtw_edcca_mode_update_by_regd_reqs of rtw_chplan.c).  The driver walks the request list; the result is
 a matter of which requests there are, not of their order.
 */
module RegdSelect {
  import opened RegdTypes

  // The fields of rf_ctl_t that the selection writes; src is SRC_NUM before the first applied request.
  datatype Status = Status(src: nat, inrs: set<nat>, alpha2: string, domain: nat, proto: set<nat>)

  datatype Always = Always(init: bool, user: bool)

  // ----- what applies

  ghost predicate TopSrc(reqs: seq<Req>, s: nat) {
    (exists r :: r in reqs && r.src == s) && (forall r :: r in reqs ==> r.src <= s)
  }

  ghost predicate TopInr(reqs: seq<Req>, s: nat, n: nat) {
    (exists r :: r in reqs && r.src == s && r.inr == n) && (forall r :: r in reqs && r.src == s ==> r.inr <= n)
  }

  ghost predicate Applies(reqs: seq<Req>, always: Always, r: Req) {
    && TopSrc(reqs, r.src)
    && (TopInr(reqs, r.src, r.inr) || (r.inr == BY_INIT && always.init) || (r.inr == BY_USER && always.user))
  }

  ghost predicate Marked(reqs: seq<Req>, always: Always, marked: seq<Req>) {
    && |marked| == |reqs|
    && (forall i :: 0 <= i < |reqs| ==> marked[i] == reqs[i].(applied := marked[i].applied))
    && (forall i {:trigger Applies(reqs, always, reqs[i])} :: 0 <= i < |reqs| ==>
         (marked[i].applied <==> Applies(reqs, always, reqs[i])))
  }

  // ----- the summary

  ghost predicate Uniform(marked: seq<Req>) {
    forall r, q :: r in marked && q in marked && r.applied && q.applied ==>
      r.plan.alpha2 == q.plan.alpha2 && r.plan.domain == q.plan.domain
  }

  ghost predicate SameDomain(marked: seq<Req>) {
    forall r, q :: r in marked && q in marked && r.applied && q.applied ==> r.plan.domain == q.plan.domain
  }

  // st summarises the applied requests of the list.
  ghost predicate Summarises(st: Status, marked: seq<Req>) {
    && (forall r :: r in marked && r.applied ==> r.src == st.src)
    && (forall n :: n in st.inrs <==> exists r :: r in marked && r.applied && r.inr == n)
    && (if Uniform(marked) then forall r :: r in marked && r.applied ==>
          r.plan.alpha2 == st.alpha2 else st.alpha2 == INTERSECTED)
    && (if SameDomain(marked) then forall r :: r in marked && r.applied ==>
          r.plan.domain == st.domain else st.domain == UNSPECIFIED)
    && (forall x :: x in st.proto <==> forall r :: r in marked && r.applied ==> x in r.plan.proto)
  }

  ghost predicate SomeApplied(marked: seq<Req>) {
    exists r :: r in marked && r.applied
  }

  // One more applied request.
  function Merge(st: Status, r: Req): Status {
    if st.src == SRC_NUM then Status(r.src, {r.inr}, r.plan.alpha2, r.plan.domain, r.plan.proto)
    else if st.src == r.src then
      Status(st.src, st.inrs + {r.inr},
             if st.alpha2 != r.plan.alpha2 || st.domain != r.plan.domain then INTERSECTED else st.alpha2,
             if st.domain != r.plan.domain then UNSPECIFIED else st.domain,
             st.proto * r.plan.proto)
    else st
  }

  // ----- the driver's loops

  method HighestSrc(reqs: seq<Req>) returns (s: nat)
    ensures if reqs == [] then s == SRC_NUM else TopSrc(reqs, s)
  {
    s := SRC_NUM;
    for i := 0 to |reqs|
      invariant i == 0 ==> s == SRC_NUM
      invariant i > 0 ==> s < SRC_NUM && exists j :: 0 <= j < i && reqs[j].src == s
      invariant forall j :: 0 <= j < i ==> reqs[j].src <= s
    {
      if s == SRC_NUM || reqs[i].src > s {
        s := reqs[i].src;
      }
    }
  }

  method HighestInr(reqs: seq<Req>, s: nat) returns (n: nat)
    ensures if exists r :: r in reqs && r.src == s then TopInr(reqs, s, n) else n == BY_NUM
  {
    n := BY_NUM;
    for i := 0 to |reqs|
      invariant n == BY_NUM ==> forall j :: 0 <= j < i ==> reqs[j].src != s
      invariant n != BY_NUM ==> n < BY_NUM && exists j :: 0 <= j < i && reqs[j].src == s && reqs[j].inr == n
      invariant n != BY_NUM ==> forall j :: 0 <= j < i && reqs[j].src == s ==> reqs[j].inr <= n
    {
      if reqs[i].src != s {
        continue;
      }
      if n == BY_NUM || reqs[i].inr > n {
        n := reqs[i].inr;
      }
    }
  }

  ghost predicate Selected(reqs: seq<Req>, always: Always, marked: seq<Req>, st: Status) {
    && Marked(reqs, always, marked)
    && (reqs != [] ==> SomeApplied(marked) && Summarises(st, marked))
  }

  lemma AppliedIs(reqs: seq<Req>, always: Always, s: nat, n: nat, r: Req)
    requires r in reqs && TopSrc(reqs, s) && TopInr(reqs, s, n)
    ensures Applies(reqs, always, r) <==>
      s == r.src && (n == r.inr || (r.inr == BY_INIT && always.init) || (r.inr == BY_USER && always.user))
  {
  }

  ghost predicate MarkedSoFar(reqs: seq<Req>, always: Always, marked: seq<Req>) {
    && |marked| <= |reqs|
    && (forall i :: 0 <= i < |marked| ==> marked[i] == reqs[i].(applied := marked[i].applied))
    && (forall i {:trigger Applies(reqs, always, reqs[i])} :: 0 <= i < |marked| ==>
         (marked[i].applied <==> Applies(reqs, always, reqs[i])))
  }

  ghost predicate SummarySoFar(st: Status, marked: seq<Req>, before: Status, s: nat) {
    if SomeApplied(marked) then Summarises(st, marked) && st.src == s else st == before.(src := SRC_NUM)
  }

  lemma SummaryStep(st: Status, marked: seq<Req>, before: Status, s: nat, r: Req)
    requires SummarySoFar(st, marked, before, s) && s < SRC_NUM && (r.applied ==> r.src == s)
    ensures SummarySoFar(if r.applied then Merge(st, r) else st, marked + [r], before, s)
  {
  }

  lemma TopApplies(reqs: seq<Req>, always: Always, s: nat, n: nat, marked: seq<Req>)
    requires Marked(reqs, always, marked) && TopSrc(reqs, s) && TopInr(reqs, s, n)
    ensures SomeApplied(marked)
  {
    var j :| 0 <= j < |reqs| && reqs[j].src == s && reqs[j].inr == n;
    AppliedIs(reqs, always, s, n, reqs[j]);
    assert marked[j] in marked;
  }

  lemma MarkStep(reqs: seq<Req>, always: Always, s: nat, n: nat, marked: seq<Req>, r: Req)
    requires |marked| < |reqs| && MarkedSoFar(reqs, always, marked) && TopSrc(reqs, s) && TopInr(reqs, s, n)
    requires r == Judged(reqs[|marked|], always, s, n)
    ensures MarkedSoFar(reqs, always, marked + [r])
  {
  }

  // The mark of a request, given the highest source and initiator.
  function Judged(r: Req, always: Always, s: nat, n: nat): Req {
    r.(applied := s == r.src && (n == r.inr || (r.inr == BY_INIT && always.init) || (r.inr == BY_USER && always.user)))
  }

  // The third loop
  method MarkAndMerge(reqs: seq<Req>, always: Always, before: Status, s: nat, n: nat)
    returns (marked: seq<Req>, st: Status)
    requires reqs != [] ==> TopSrc(reqs, s) && TopInr(reqs, s, n)
    ensures Marked(reqs, always, marked) && SummarySoFar(st, marked, before, s)
  {
    st := before.(src := SRC_NUM);
    marked := [];
    for i := 0 to |reqs|
      invariant |marked| == i && MarkedSoFar(reqs, always, marked) && SummarySoFar(st, marked, before, s)
    {
      var r := Judged(reqs[i], always, s, n);
      MarkStep(reqs, always, s, n, marked, r);
      SummaryStep(st, marked, before, s, r);
      if r.applied {
        st := Merge(st, r);
      }
      marked := marked + [r];
    }
  }

  // rtw_rfctl_regd_req_sel_and_status_update; before: the status so far
  method Select(reqs: seq<Req>, always: Always, before: Status) returns (marked: seq<Req>, st: Status)
    ensures Selected(reqs, always, marked, st)
    ensures reqs == [] ==> st == before.(src := SRC_NUM)
  {
    var s := HighestSrc(reqs);
    var n := HighestInr(reqs, s);
    marked, st := MarkAndMerge(reqs, always, before, s, n);
    if reqs != [] {
      TopApplies(reqs, always, s, n, marked);
    }
  }

  // The source of the summary is that of some request.
  lemma SourceIs(reqs: seq<Req>, always: Always, marked: seq<Req>, st: Status) returns (i: nat)
    requires reqs != [] && Selected(reqs, always, marked, st)
    ensures i < |reqs| && reqs[i].src == st.src
  {
    var r :| r in marked && r.applied;
    i :| 0 <= i < |marked| && marked[i] == r;
  }

  lemma MarksOnly(reqs: seq<Req>, always: Always, marked: seq<Req>, st: Status)
    requires Selected(reqs, always, marked, st)
    ensures |marked| == |reqs| && forall i :: 0 <= i < |reqs| ==> marked[i] == reqs[i].(applied := marked[i].applied)
  {
  }

  lemma SameTops(a: seq<Req>, b: seq<Req>, s: nat, n: nat)
    requires |a| == |b| && forall i :: 0 <= i < |a| ==> b[i].src == a[i].src && b[i].inr == a[i].inr
    ensures TopSrc(a, s) ==> TopSrc(b, s)
    ensures TopInr(a, s, n) ==> TopInr(b, s, n)
  {
  }

  // The marks are right for the marked list as well.
  lemma SelectedAgain(reqs: seq<Req>, always: Always, marked: seq<Req>, st: Status)
    requires Selected(reqs, always, marked, st)
    ensures Selected(marked, always, marked, st)
  {
    MarksOnly(reqs, always, marked, st);
    forall i | 0 <= i < |reqs| ensures Applies(reqs, always, reqs[i]) <==> Applies(marked, always, marked[i]) {
      SameTops(reqs, marked, reqs[i].src, reqs[i].inr);
      SameTops(marked, reqs, reqs[i].src, reqs[i].inr);
    }
  }

  // ----- the order of the list does not matter

  ghost predicate SameRequests(a: seq<Req>, b: seq<Req>) {
    forall r :: r in a <==> r in b
  }

  lemma MarksAgree(a: seq<Req>, b: seq<Req>, always: Always, ma: seq<Req>, mb: seq<Req>)
    requires SameRequests(a, b) && Marked(a, always, ma) && Marked(b, always, mb)
    ensures forall i, j :: 0 <= i < |a| && 0 <= j < |b| && a[i] == b[j] ==> ma[i] == mb[j]
    ensures SameRequests(ma, mb)
  {
    forall r: Req ensures Applies(a, always, r) == Applies(b, always, r) { }
    forall i, j | 0 <= i < |a| && 0 <= j < |b| && a[i] == b[j] ensures ma[i] == mb[j] {
      assert Applies(a, always, a[i]) == Applies(b, always, b[j]);
    }
    forall r | r in ma ensures r in mb {
      var i :| 0 <= i < |a| && ma[i] == r;
      assert a[i] in b;
      var j :| 0 <= j < |b| && b[j] == a[i];
      assert mb[j] == r;
    }
    forall r | r in mb ensures r in ma {
      var j :| 0 <= j < |b| && mb[j] == r;
      assert b[j] in a;
      var i :| 0 <= i < |a| && a[i] == b[j];
      assert ma[i] == r;
    }
  }

  lemma SummaryUnique(st: Status, su: Status, ma: seq<Req>, mb: seq<Req>)
    requires SomeApplied(ma) && SameRequests(ma, mb) && Summarises(st, ma) && Summarises(su, mb)
    ensures st == su
  {
  }

  /** Two lists with the same requests, in whatever order, get the same mark on each request and the same
      summary; with a request in the list some request applies, and all that apply have one source. */
  lemma OrderIrrelevant(a: seq<Req>, b: seq<Req>, always: Always, ma: seq<Req>, st: Status, mb: seq<Req>, su: Status)
    requires a != [] && SameRequests(a, b) && Selected(a, always, ma, st) && Selected(b, always, mb, su)
    ensures st == su && SomeApplied(ma)
    ensures forall i, j :: 0 <= i < |a| && 0 <= j < |b| && a[i] == b[j] ==> ma[i] == mb[j]
    ensures forall r, q :: r in ma && q in ma && r.applied && q.applied ==> r.src == q.src
  {
    MarksAgree(a, b, always, ma, mb);
    assert a[0] in b;
    SummaryUnique(st, su, ma, mb);
  }

  // ----- energy detection

  const EDCCA_MODE_NUM: nat := 4

  // rtw_edcca_mode_get_strictest: modes from EDCCA_MODE_NUM on count as none
  function Strictest(a: nat, b: nat): (r: nat)
    ensures r <= EDCCA_MODE_NUM
    ensures r < EDCCA_MODE_NUM ==> r == a || r == b
    ensures a < EDCCA_MODE_NUM ==> a <= r < EDCCA_MODE_NUM
    ensures b < EDCCA_MODE_NUM ==> b <= r < EDCCA_MODE_NUM
  {
    if a >= EDCCA_MODE_NUM then if b < EDCCA_MODE_NUM then b else EDCCA_MODE_NUM
    else if b >= EDCCA_MODE_NUM then a
    else if a > b then a else b
  }

  // The override of the plan, or the mode of the domain code, which `table` gives.
  function ModeOf(p: Plan, band: Band, table: (nat, Band) -> nat): nat {
    var override := if band.B2G? then p.edcca2g else p.edcca5g;
    if override != EDCCA_MODE_NUM then override else table(p.domain, band)
  }

  // m is the strictest mode that an applied request asks for, or none.
  ghost predicate IsStrictest(m: nat, marked: seq<Req>, band: Band, table: (nat, Band) -> nat) {
    && m <= EDCCA_MODE_NUM
    && (forall r :: r in marked && r.applied && ModeOf(r.plan, band, table) < EDCCA_MODE_NUM ==>
          ModeOf(r.plan, band, table) <= m < EDCCA_MODE_NUM)
    && (m < EDCCA_MODE_NUM ==> exists r :: r in marked && r.applied && ModeOf(r.plan, band, table) == m)
  }

  // rtw_edcca_mode_update_by_regd_reqs
  method EdccaModes(marked: seq<Req>, table: (nat, Band) -> nat) returns (m2g: nat, m5g: nat)
    ensures IsStrictest(m2g, marked, B2G, table) && IsStrictest(m5g, marked, B5G, table)
    ensures forall r :: r in marked && r.applied ==>
      && (r.plan.edcca2g < 4 ==> r.plan.edcca2g <= m2g < 4)
      && (r.plan.edcca2g == 4 && table(r.plan.domain, B2G) < 4 ==> table(r.plan.domain, B2G) <= m2g < 4)
      && (r.plan.edcca5g < 4 ==> r.plan.edcca5g <= m5g < 4)
      && (r.plan.edcca5g == 4 && table(r.plan.domain, B5G) < 4 ==> table(r.plan.domain, B5G) <= m5g < 4)
    ensures m2g < 4 ==>
      exists r :: && r in marked && r.applied
                  && (r.plan.edcca2g == m2g || (r.plan.edcca2g == 4 && table(r.plan.domain, B2G) == m2g))
    ensures m5g < 4 ==>
      exists r :: && r in marked && r.applied
                  && (r.plan.edcca5g == m5g || (r.plan.edcca5g == 4 && table(r.plan.domain, B5G) == m5g))
  {
    m2g, m5g := EDCCA_MODE_NUM, EDCCA_MODE_NUM;
    for i := 0 to |marked|
      invariant IsStrictest(m2g, marked[..i], B2G, table) && IsStrictest(m5g, marked[..i], B5G, table)
    {
      assert marked[..i + 1] == marked[..i] + [marked[i]];
      var r := marked[i];
      StrictestStep(m2g, marked[..i], r, B2G, table);
      StrictestStep(m5g, marked[..i], r, B5G, table);
      if !r.applied {
        continue;
      }
      m2g := Strictest(m2g, ModeOf(r.plan, B2G, table));
      m5g := Strictest(m5g, ModeOf(r.plan, B5G, table));
    }
    assert marked[..|marked|] == marked;
  }

  lemma StrictestStep(m: nat, marked: seq<Req>, r: Req, band: Band, table: (nat, Band) -> nat)
    requires IsStrictest(m, marked, band, table)
    ensures IsStrictest(if r.applied then Strictest(m, ModeOf(r.plan, band, table)) else m, marked + [r], band, table)
  {
  }

  /** The strictest mode, too, is the same for every order of the list. */
  lemma StrictestUnique(m: nat, n: nat, ma: seq<Req>, mb: seq<Req>, band: Band, table: (nat, Band) -> nat)
    requires SameRequests(ma, mb) && IsStrictest(m, ma, band, table) && IsStrictest(n, mb, band, table)
    ensures m == n
  {
  }
}
