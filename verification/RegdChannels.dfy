/** From the request list to the channel set: the order in which the requests were made leaves no trace. */
module RegdChannels {
  import opened RegdTypes
  import S = RegdSelect
  import C = ChannelSet

  // The domain codes that rtw_rfctl_chset_apply_regd_reqs applies.
  function AppliedDomains(marked: seq<Req>): seq<nat> {
    if marked == [] then [] else
      var front, last := marked[..|marked| - 1], marked[|marked| - 1];
      if last.applied && last.src == SRC_RTK_PRIV then AppliedDomains(front) + [last.plan.domain]
      else AppliedDomains(front)
  }

  lemma {:induction false} AppliedDomainsIs(marked: seq<Req>, id: nat)
    ensures id in AppliedDomains(marked) <==>
        exists r :: r in marked && r.applied && r.src == SRC_RTK_PRIV && r.plan.domain == id
  {
    if marked != [] {
      var front, last := marked[..|marked| - 1], marked[|marked| - 1];
      assert marked == front + [last];
      AppliedDomainsIs(front, id);
      assert last in marked;
    }
  }

  /** Two request lists with the same requests lead to the same flags on every channel. */
  lemma SameChannels(a: seq<Req>, b: seq<Req>, always: S.Always, ma: seq<Req>, st: S.Status, mb: seq<Req>, su: S.Status,
                     db: C.Regdb, lim: C.Limits, band: Band, ch: nat, f: set<C.Flag>, g: set<C.Flag>)
    requires S.SameRequests(a, b) && S.Selected(a, always, ma, st) && S.Selected(b, always, mb, su)
    requires C.HasFlags(f, db, lim, AppliedDomains(ma), band, ch)
    requires C.HasFlags(g, db, lim, AppliedDomains(mb), band, ch)
    ensures f == g
  {
    S.MarksAgree(a, b, always, ma, mb);
    forall id ensures id in AppliedDomains(ma) <==> id in AppliedDomains(mb) {
      AppliedDomainsIs(ma, id);
      AppliedDomainsIs(mb, id);
    }
    C.FlagsUnique(f, g, db, lim, AppliedDomains(ma), AppliedDomains(mb), band, ch);
  }
}
