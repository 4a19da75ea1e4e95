/**
 The sounding machine of rtw_beamforming.c, as the driver implements it: padded lists of entries, marks in the
 entries, a current index and a count of multi-user candidates.  Every method does what SoundingSpec says.
 */
module Sounding {
  import opened SoundingSpec

  const NOTHING: nat := 0xFF

  // An entry with the marks that only the sounding machine uses: bCandidateSoundingPeer, sounding, bSoundingTimeout
  datatype Bfee = Bfee(e: Entry, candidate: bool, sounding: bool, timedOut: bool)

  // What the rest of the driver sees.
  function Public(bfee: seq<Bfee>): (es: seq<Entry>)
    ensures |es| == |bfee| && forall j :: 0 <= j < |bfee| ==> es[j] == bfee[j].e
  {
    seq(|bfee|, j requires 0 <= j < |bfee| => bfee[j].e)
  }

  lemma PublicUpdate(bfee: seq<Bfee>, i: nat, b: Bfee)
    requires i < |bfee|
    ensures Public(bfee[i := b]) == Public(bfee)[i := b.e]
  {
  }

  lemma PublicDiffers(a: seq<Bfee>, b: seq<Bfee>)
    requires |a| == |b|
    ensures Public(a) != Public(b) <==> exists j :: 0 <= j < |a| && a[j].e != b[j].e
  {
    if j :| 0 <= j < |a| && a[j].e != b[j].e {
      assert Public(a)[j] != Public(b)[j];
    } else {
      assert Public(a) == Public(b);
    }
  }

  ghost predicate SameMarks(a: seq<Bfee>, b: seq<Bfee>) {
    |a| == |b| && forall j :: 0 <= j < |a| ==> b[j].sounding == a[j].sounding && b[j].timedOut == a[j].timedOut
  }

  lemma JudgedPublic(a: seq<Bfee>, b: seq<Bfee>, sound: set<nat>)
    requires |a| == |b| && forall j :: 0 <= j < |a| ==> b[j] == a[j].(e := Judged(a[j].e, j in sound))
    ensures Public(b) == JudgedAll(Public(a), sound)
    ensures Public(b) != Public(a) <==> exists j :: 0 <= j < |a| && a[j].e != b[j].e
    ensures SameMarks(a, b)
  {
    PublicDiffers(a, b);
  }

  // ----- a list of entry indices, padded with NOTHING

  function Padded(l: seq<nat>, size: nat): (r: seq<nat>)
    requires |l| <= size
    ensures |r| == size && forall i :: 0 <= i < size ==> r[i] == if i < |l| then l[i] else NOTHING
  {
    seq(size, i requires 0 <= i < size => if i < |l| then l[i] else NOTHING)
  }

  lemma PaddedAppend(l: seq<nat>, size: nat, i: nat)
    requires |l| < size
    ensures Padded(l, size)[|l| := i] == Padded(l + [i], size)
  {
  }

  function Cleared(b: Bfee): Bfee {
    if b.e.used && b.sounding then b.(sounding := false, candidate := false) else b
  }

  // Entry j after the list loop has visited the first n entries.
  function ListedEntry(es: seq<Entry>, n: nat, j: nat): Entry
    requires n <= |es| && j < |es|
  {
    if j >= n then es[j] else Counted(es[j], j in FirstDue(es, n, SuCap) || j in FirstDue(es, n, MuCap))
  }

  // The marks of listed entries apart, `now` is `was` after the list loop has visited the first n entries.
  ghost predicate ListedTo(now: seq<Bfee>, was: seq<Bfee>, n: nat)
    requires n <= |was|
  {
    && |now| == |was|
    && forall j :: 0 <= j < |was| ==>
          now[j] == was[j].(e := ListedEntry(Public(was), n, j), candidate := now[j].candidate)
  }

  lemma ListedNext(before: seq<Bfee>, now: seq<Bfee>, was: seq<Bfee>, i: nat)
    requires i < |was| && ListedTo(before, was, i) && |now| == |before| && now == before[i := now[i]]
    requires var es := Public(was);
      now[i] == was[i].(e := Counted(es[i], (DueAs(es[i], SuCap) && |FirstDue(es, i, SuCap)| < MAX_SU)
                                         || (DueAs(es[i], MuCap) && |FirstDue(es, i, MuCap)| < MAX_MU)),
                        candidate := now[i].candidate)
    ensures ListedTo(now, was, i + 1)
  {
    forall j | 0 <= j < |was|
      ensures now[j] == was[j].(e := ListedEntry(Public(was), i + 1, j), candidate := now[j].candidate)
    {
      ListedEntryNext(Public(was), i, j);
    }
  }

  lemma ListedEntryNext(es: seq<Entry>, i: nat, j: nat)
    requires i < |es| && j < |es|
    ensures ListedEntry(es, i + 1, j) ==
      if j != i then ListedEntry(es, i, j)
      else Counted(es[i], (DueAs(es[i], SuCap) && |FirstDue(es, i, SuCap)| < MAX_SU)
                       || (DueAs(es[i], MuCap) && |FirstDue(es, i, MuCap)| < MAX_MU))
  {
    FirstDueIs(es, i, SuCap);
    FirstDueIs(es, i, MuCap);
  }

  // What listing gives, when no used entry is marked.
  lemma ListedWell(was: seq<Bfee>, now: seq<Bfee>)
    requires |was| == ENTRIES && ListedTo(now, was, |was|)
    requires forall j :: 0 <= j < ENTRIES && was[j].e.used ==> !was[j].sounding
    ensures var es := Public(was); var su, mu := FirstDue(es, |es|, SuCap), FirstDue(es, |es|, MuCap);
      && (forall i :: 0 <= i < |su| ==> su[i] < ENTRIES && !now[su[i]].sounding)
      && (forall i, j :: 0 <= i < j < |su| ==> su[i] != su[j])
      && (forall i :: 0 <= i < |mu| ==> mu[i] < ENTRIES)
      && Public(now) == CountedAll(es)
  {
    FirstDueIs(Public(was), |was|, SuCap);
    FirstDueIs(Public(was), |was|, MuCap);
  }

  class Sounder {
    var bfee: seq<Bfee>
    var suList: seq<nat>
    var muList: seq<nat>
    var state: State
    var curIdx: nat
    var muCnt: nat
    var running: int
    var waitCnt: nat
    var psDenied: bool
    var queue: seq<Cmd>
    var leaves: seq<nat>

    // The single-user entries listed for the period, whether there is a group, and the course of the periods.
    ghost var su: seq<nat>
    ghost var mu: bool
    ghost var now: Progress
    ghost var history: seq<Period>

    ghost function View(): Machine
      reads this
    {
      Machine(Public(bfee), state, waitCnt, running, queue, leaves, now, history)
    }

    // _sounding_reset_vars
    method ResetVars()
      requires |bfee| == ENTRIES
      modifies this`bfee, this`suList, this`muList, this`curIdx, this`muCnt
      ensures suList == Padded([], MAX_SU) && muList == Padded([], MAX_MU) && curIdx == NOTHING && muCnt == 0
      ensures |bfee| == ENTRIES && forall j :: 0 <= j < ENTRIES ==> bfee[j] == Cleared(old(bfee)[j])
    {
      suList, muList := Padded([], MAX_SU), Padded([], MAX_MU);
      curIdx, muCnt := NOTHING, 0;
      for i := 0 to ENTRIES
        invariant |bfee| == ENTRIES
        invariant suList == Padded([], MAX_SU) && muList == Padded([], MAX_MU) && curIdx == NOTHING && muCnt == 0
        invariant forall j :: 0 <= j < ENTRIES ==> bfee[j] == if j < i then Cleared(old(bfee)[j]) else old(bfee)[j]
      {
        if bfee[i].e.used && bfee[i].sounding {
          bfee := bfee[i := bfee[i].(sounding := false, candidate := false)];
        }
      }
    }

    // Count an entry down and decide whether it is sounded in this period
    method Judge(before: Entry, suRoom: bool, muRoom: bool)
      returns (e: Entry, addMu: bool, addSu: bool, candidate: bool)
      requires before.used && before.ready
      ensures addMu == (DueAs(before, MuCap) && muRoom) && addSu == (DueAs(before, SuCap) && suRoom)
      ensures e == Counted(before, addMu || addSu)
    {
      e, addMu, addSu, candidate := before, false, false, false;
      if e.soundCnt > 0 {
        e := e.(soundCnt := e.soundCnt - 1);
        if e.soundCnt > 0 {
          return;
        }
      }
      if e.cap.MuCap? {
        if muRoom && e.apply {
          e := e.(soundCnt := e.reload);
          candidate, addMu := true, true;
        }
      } else if e.cap.SuCap? && suRoom {
        if e.delete {
          addSu := true;
        } else if e.apply && !e.suspended {
          e := e.(soundCnt := e.reload);
          candidate, addSu := true, true;
        }
      }
    }

    // The lists as they are after the first n entries of es.
    ghost predicate HoldsLists(es: seq<Entry>, n: nat, suIdx: nat, muIdx: nat)
      requires n <= |es|
      reads this`suList, this`muList
    {
      var su, mu := FirstDue(es, n, SuCap), FirstDue(es, n, MuCap);
      suIdx == |su| && muIdx == |mu| && suList == Padded(su, MAX_SU) && muList == Padded(mu, MAX_MU)
    }

    // The body of the loop of _sounding_get_list
    method ListEntry(i: nat, suIdx: nat, muIdx: nat, notReady: nat, ghost was: seq<Bfee>)
      returns (suIdx': nat, muIdx': nat, notReady': nat)
      requires i < |was| == ENTRIES && ListedTo(bfee, was, i) && HoldsLists(Public(was), i, suIdx, muIdx)
      modifies this`bfee, this`suList, this`muList
      ensures ListedTo(bfee, was, i + 1) && HoldsLists(Public(was), i + 1, suIdx', muIdx')
      ensures notReady' == notReady + if was[i].e.used && !was[i].e.ready then 1 else 0
    {
      suIdx', muIdx', notReady' := suIdx, muIdx, notReady;
      var b := bfee[i];
      assert b.e == Public(was)[i];
      if !b.e.used || !b.e.ready {
        ListedNext(bfee, bfee, was, i);
        if b.e.used {
          notReady' := notReady + 1;
        }
        return;
      }
      suIdx', muIdx' := ListReady(i, suIdx, muIdx, was);
    }

    // An entry that is in use and ready
    method ListReady(i: nat, suIdx: nat, muIdx: nat, ghost was: seq<Bfee>) returns (suIdx': nat, muIdx': nat)
      requires i < |was| == ENTRIES && ListedTo(bfee, was, i) && HoldsLists(Public(was), i, suIdx, muIdx)
      requires was[i].e.used && was[i].e.ready
      modifies this`bfee, this`suList, this`muList
      ensures ListedTo(bfee, was, i + 1) && HoldsLists(Public(was), i + 1, suIdx', muIdx')
    {
      suIdx', muIdx' := suIdx, muIdx;
      ghost var es := Public(was);
      var b := bfee[i];
      assert b.e == es[i];
      var e, addMu, addSu, candidate := Judge(b.e, suIdx < MAX_SU, muIdx < MAX_MU);
      ghost var before := bfee;
      bfee := bfee[i := b.(e := e, candidate := b.candidate || candidate)];
      ListedNext(before, bfee, was, i);
      if addMu {
        PaddedAppend(FirstDue(es, i, MuCap), MAX_MU, i);
        muList := muList[muIdx := i];
        muIdx' := muIdx + 1;
      }
      if addSu {
        PaddedAppend(FirstDue(es, i, SuCap), MAX_SU, i);
        suList := suList[suIdx := i];
        suIdx' := suIdx + 1;
      }
    }

    // _sounding_get_list
    method GetList() returns (ret: int)
      requires |bfee| == ENTRIES && suList == Padded([], MAX_SU) && muList == Padded([], MAX_MU)
      modifies this`bfee, this`suList, this`muList, this`muCnt
      ensures |bfee| == ENTRIES && ListedTo(bfee, old(bfee), |old(bfee)|)
      ensures var es := Public(old(bfee)); var su, mu := FirstDue(es, |es|, SuCap), FirstDue(es, |es|, MuCap);
        && suList == Padded(su, MAX_SU) && muList == Padded(mu, MAX_MU) && muCnt == |mu|
        && ret == if su != [] || mu != [] then 0 else if SomeNotReady(es) then -2 else -1
    {
      var muIdx, suIdx, notReady := 0, 0, 0;
      for i := 0 to |bfee|
        invariant ListedTo(bfee, old(bfee), i) && HoldsLists(Public(old(bfee)), i, suIdx, muIdx)
        invariant notReady > 0 <==> exists j :: 0 <= j < i && old(bfee)[j].e.used && !old(bfee)[j].e.ready
      {
        suIdx, muIdx, notReady := ListEntry(i, suIdx, muIdx, notReady, old(bfee));
      }
      muCnt := muIdx;
      ret := 0;
      if suIdx + muIdx == 0 {
        ret := -1;
        if notReady > 0 {
          ret := -2;
        }
      }
    }

    // ----- invariants

    ghost predicate ListsOk()
      reads this`bfee, this`muList, this`muCnt, this`su, this`suList
    {
      && |bfee| == ENTRIES && |muList| == MAX_MU && muCnt <= MAX_MU
      && (forall i :: 0 <= i < muCnt ==> muList[i] < ENTRIES)
      && |su| <= MAX_SU && suList == Padded(su, MAX_SU)
      && (forall i :: 0 <= i < |su| ==> su[i] < ENTRIES)
      && (forall i, j :: 0 <= i < j < |su| ==> su[i] != su[j])
    }

    // The driver's marks say how far the plan is done.
    ghost predicate Marked()
      requires ListsOk()
      reads this
    {
      && psDenied && now.plan == PlanOf(su, mu) && now.started <= |now.plan|
      && (forall i :: 0 <= i < |su| ==> (bfee[su[i]].sounding <==> i < now.started))
      && (muCnt > 0 <==> mu && now.started <= |su|)
    }

    ghost predicate Core()
      reads this
    {
      && ListsOk()
      && (if state.Off? || state.Init? then !psDenied else Marked())
      && (state.SuStart? ==> 0 < now.started <= |su| && curIdx == su[now.started - 1] && !bfee[curIdx].timedOut)
      && (state.MuStart? ==> now.started == |su| + 1)
    }

    // Nothing but the public part of the entries has changed.
    twostate lemma MarksKeepCore()
      requires old(Core()) && SameMarks(old(bfee), bfee) && suList == old(suList) && muList == old(muList)
      requires su == old(su)
      requires muCnt == old(muCnt) && mu == old(mu) && now == old(now) && state == old(state)
      requires curIdx == old(curIdx) && psDenied == old(psDenied)
      ensures Core()
    {
      forall i | 0 <= i < |su| ensures bfee[su[i]].sounding == old(bfee)[su[i]].sounding { }
    }

    // ----- the steps of _sounding_handler

    // Get the first listed single-user beamformee that is not sounded yet
    method FindSu() returns (i: nat)
      requires ListsOk() && forall i :: 0 <= i < |su| ==> (bfee[su[i]].sounding <==> i < now.started)
      ensures i == if now.started < |su| then now.started else MAX_SU
    {
      i := 0;
      while i < MAX_SU
        invariant i <= MAX_SU && (i <= now.started || |su| <= now.started)
      {
        if suList[i] < ENTRIES && !bfee[suList[i]].sounding {
          break;
        }
        i := i + 1;
      }
    }

    // The mark of the next single-user beamformee
    method MarkSu(i: nat)
      requires ListsOk() && i < |su| && forall j :: 0 <= j < |su| ==> (bfee[su[j]].sounding <==> j < i)
      modifies this`curIdx, this`bfee
      ensures ListsOk() && curIdx == su[i] && !bfee[curIdx].timedOut && Public(bfee) == old(Public(bfee))
      ensures forall j :: 0 <= j < |su| ==> (bfee[su[j]].sounding <==> j < i + 1)
    {
      curIdx := suList[i];
      PublicUpdate(bfee, curIdx, bfee[curIdx].(sounding := true, timedOut := false));
      bfee := bfee[curIdx := bfee[curIdx].(sounding := true, timedOut := false)];
    }

    method StartSu(i: nat)
      requires ListsOk() && Marked() && i == now.started < |su|
      modifies this`curIdx, this`state, this`bfee, this`now
      ensures Core() && state.SuStart? && curIdx == su[i] && now.plan[i] == Su(su[i]) && View() == Begun(old(View()))
    {
      MarkSu(i);
      state := SuStart;
      now := now.(runs := now.runs + 1, started := i + 1);
    }

    method MarkMu()
      requires ListsOk() && forall i :: 0 <= i < |su| ==> bfee[su[i]].sounding
      modifies this`bfee
      ensures ListsOk() && (forall i :: 0 <= i < |su| ==> bfee[su[i]].sounding) && Public(bfee) == old(Public(bfee))
    {
      for i := 0 to muCnt
        invariant ListsOk() && (forall i :: 0 <= i < |su| ==> bfee[su[i]].sounding) && Public(bfee) == old(Public(bfee))
      {
        PublicUpdate(bfee, muList[i], bfee[muList[i]].(sounding := true));
        bfee := bfee[muList[i] := bfee[muList[i]].(sounding := true)];
      }
    }

    method StartMu()
      requires ListsOk() && Marked() && now.started >= |su| && muCnt > 0
      modifies this`state, this`bfee, this`muCnt, this`now
      ensures Core() && state.MuStart? && now.plan[|su|] == Mu && View() == Begun(old(View()))
    {
      state := MuStart;
      MarkMu();
      muCnt := 0;
      now := now.(runs := now.runs + 1, started := now.started + 1);
    }

    method Finish()
      requires ListsOk() && Marked() && now.started >= |su| && muCnt == 0
      modifies this`running, this`state, this`psDenied, this`now, this`history
      ensures Core() && old(now).started == |old(now).plan| && View() == Closed(old(View()))
    {
      now := now.(runs := now.runs + 1);
      running := running - 1;
      state := Init;
      history := history + [Period(now.plan, now.outcomes, now.runs)];
      psDenied := false;
    }

    // The part of the handler that picks what to sound next
    method Continue(scanning: bool)
      requires ListsOk() && Marked() && !state.SuStart? && !state.MuStart?
      modifies this
      ensures Core() && View() == Go(old(View()))
      decreases |now.plan| - now.started, 0
    {
      var i := FindSu();
      if i < MAX_SU {
        StartSu(i);
        if bfee[curIdx].e.delete {
          SoundingDown(false, scanning);
        }
        return;
      }
      if muCnt > 0 {
        StartMu();
        return;
      }
      Finish();
    }

    // _sounding_handler
    method Handler(scanning: bool)
      requires Core()
      modifies this
      ensures Core() && View() == Handle(old(View()), scanning)
      decreases Left(), 1
    {
      if Deaf(state) {
        return;
      }
      if state.Init? {
        var ok := Open(scanning);
        if !ok {
          return;
        }
      }
      Continue(scanning);
    }

    // What bounds the recursion between the handler and the sound-down.
    ghost function Left(): nat
      reads this
    {
      if state.Init? then MAX_SU + 2 else if now.started <= |now.plan| then |now.plan| - now.started else 0
    }

    // _beamforming_sounding_down
    method SoundingDown(ok: bool, scanning: bool)
      requires Core()
      modifies this
      ensures Core() && View() == SoundDown(old(View()), ok)
      decreases Left(), 2
    {
      if state.MuStart? {
        state := MuSounddown;
        now := now.(outcomes := now.outcomes + [Down(ok)]);
      } else if state.SuStart? {
        SuDown(ok);
      } else {
        return;
      }
      Handler(scanning);
    }

    method SuDown(ok: bool)
      requires Core() && state.SuStart?
      modifies this`state, this`bfee, this`now, this`leaves
      ensures Core() && View() == ReportedDown(old(View()), ok)
    {
      assert now.plan[now.started - 1] == Su(curIdx);
      if bfee[curIdx].timedOut {
        // the driver gives up the period here; a sounding that timed out has left SuStart, so it never does
        assert false;
      }
      TakeReport(ok);
      state := SuSounddown;
      now := now.(outcomes := now.outcomes + [Down(ok)]);
    }

    method TakeReport(ok: bool)
      requires ListsOk() && curIdx < ENTRIES
      modifies this`bfee, this`leaves
      ensures ListsOk() && View() == EntryReported(old(View()), curIdx, ok)
      ensures forall j :: 0 <= j < ENTRIES ==> bfee[j].sounding == old(bfee)[j].sounding
    {
      var e, leave := Report1(bfee[curIdx].e, ok);
      PublicUpdate(bfee, curIdx, bfee[curIdx].(e := e));
      bfee := bfee[curIdx := bfee[curIdx].(e := e)];
      if leave {
        leaves := leaves + [curIdx];
      }
    }

    // What a report does to the entry; leave: the entry has failed too often and is to be dropped
    method Report1(before: Entry, ok: bool) returns (e: Entry, leave: bool)
      ensures e == Reported(before, ok) && leave == DropsEntry(before, ok)
    {
      e, leave := before, false;
      if ok {
        e := e.(failCnt := 0);
      } else if e.delete {
        e := e.(delete := false);
      } else {
        e := e.(failCnt := (e.failCnt + 1) % 32);
        leave := e.failCnt > 30;
      }
    }

    // The lists of a new period
    method Prepare() returns (ret: int)
      requires |bfee| == ENTRIES
      modifies this`bfee, this`suList, this`muList, this`curIdx, this`muCnt, this`su, this`mu
      ensures ListsOk() && (forall i :: 0 <= i < |su| ==> !bfee[su[i]].sounding) && (muCnt > 0 <==> mu)
      ensures var es := Public(old(bfee));
        && PlanOf(su, mu) == NewPlan(es) && Public(bfee) == CountedAll(es)
        && ret == if NewPlan(es) != [] then 0 else if SomeNotReady(es) then -2 else -1
    {
      ghost var es := Public(bfee);
      ghost var cleared;
      ret, cleared := ResetAndList();
      su, mu := FirstDue(es, |es|, SuCap), FirstDue(es, |es|, MuCap) != [];
      ListedWell(cleared, bfee);
    }

    method ResetAndList() returns (ret: int, ghost cleared: seq<Bfee>)
      requires |bfee| == ENTRIES
      modifies this`bfee, this`suList, this`muList, this`curIdx, this`muCnt
      ensures |cleared| == |bfee| == ENTRIES && ListedTo(bfee, cleared, |cleared|)
      ensures Public(cleared) == Public(old(bfee))
      ensures forall j :: 0 <= j < ENTRIES && cleared[j].e.used ==> !cleared[j].sounding
      ensures var es := Public(old(bfee)); var su, mu := FirstDue(es, |es|, SuCap), FirstDue(es, |es|, MuCap);
        && suList == Padded(su, MAX_SU) && muList == Padded(mu, MAX_MU) && muCnt == |mu|
        && ret == if su != [] || mu != [] then 0 else if SomeNotReady(es) then -2 else -1
    {
      ResetVars();
      cleared := bfee;
      assert Public(cleared) == Public(old(bfee));
      ret := GetList();
    }

    // The lists of a new period, and the account of it
    method List() returns (ret: int)
      requires |bfee| == ENTRIES
      modifies this`bfee, this`suList, this`muList, this`curIdx, this`muCnt, this`su, this`mu, this`now
      ensures ListsOk() && (forall i :: 0 <= i < |su| ==> !bfee[su[i]].sounding) && (muCnt > 0 <==> mu)
      ensures now == Progress(PlanOf(su, mu), 0, [], 0) && View() == Opened(old(View())).(waitCnt := waitCnt)
      ensures ret == if now.plan != [] then 0 else if SomeNotReady(old(View()).es) then -2 else -1
    {
      ghost var m := View();
      ret := Prepare();
      now := Progress(PlanOf(su, mu), 0, [], 0);
      ViewOpened(m);
    }

    lemma ViewOpened(m: Machine)
      requires Public(bfee) == CountedAll(m.es) && now == Progress(NewPlan(m.es), 0, [], 0)
      requires m == View().(es := m.es, now := m.now)
      ensures View() == Opened(m).(waitCnt := waitCnt)
    {
    }

    // The part of the handler for the initial state; ok: a period was opened
    method Open(scanning: bool) returns (ok: bool)
      requires Core() && state.Init?
      modifies this`bfee, this`suList, this`muList, this`curIdx, this`muCnt, this`su, this`mu, this`now, this`waitCnt,
               this`state, this`running, this`psDenied
      ensures ok ==> ListsOk() && Marked() && state.Init? && now.started == 0 && View() == Opened(old(View()))
      ensures ok <==> NewPlan(old(View()).es) != [] && !scanning
      ensures !ok ==> Core() && View() == Refused(old(View()))
    {
      var ret := List();
      ok := ret == 0 && !scanning;
      if ok {
        waitCnt := 0;
        psDenied := true;
      } else {
        Refuse(ret, old(View()));
      }
    }

    // The early returns of the handler
    method Refuse(ret: int, ghost m: Machine)
      requires View() == Opened(m).(waitCnt := waitCnt) && m.state.Init? && m.waitCnt == waitCnt
      requires ret == if NewPlan(m.es) != [] then 0 else if SomeNotReady(m.es) then -2 else -1
      modifies this`waitCnt, this`state, this`running
      ensures View() == Refused(m) && (state.Init? || state.Off?)
    {
      if ret == -1 {
        waitCnt := 0;
        state := Off;
        running := running - 1;
        return;
      }
      if ret == -2 {
        if waitCnt < 5 {
          waitCnt := waitCnt + 1;
        } else {
          waitCnt := 0;
          state := Off;
        }
        running := running - 1;
        return;
      }
      waitCnt := 0;
      running := running - 1;
    }

    // ----- timers, reports, traffic and the command thread

    ghost predicate Valid()
      reads this
    {
      Core() && Inv(View())
    }

    constructor (bs: seq<Bfee>)
      requires |bs| == ENTRIES
      ensures Valid() && View() == Start(Public(bs))
    {
      bfee, suList, muList := bs, Padded([], MAX_SU), Padded([], MAX_MU);
      state, curIdx, muCnt, running, waitCnt, psDenied, queue, leaves := Init, NOTHING, 0, 0, 0, false, [], [];
      su, mu, now, history := [], false, Progress([], 0, [], 0), [];
    }

    // _sounding_timeout_timer_handler
    method TimeoutTimer()
      requires Core()
      modifies this`state, this`bfee, this`now, this`queue
      ensures Core() && View() == Step(old(View()), TimeoutFires)
    {
      if state.SuStart? {
        PublicUpdate(bfee, curIdx, bfee[curIdx].(timedOut := true));
        state := TimedOutState;
        bfee := bfee[curIdx := bfee[curIdx].(timedOut := true)];
        assert Public(bfee) == old(Public(bfee));
      } else if state.MuStart? {
        state := TimedOutState;
      } else {
        return;
      }
      now := now.(outcomes := now.outcomes + [Timeout]);
      queue := queue + [StartPeriod];
    }

    // _sounding_timer_handler, without the forced stop
    method PeriodTimer()
      requires Valid()
      modifies this`running, this`queue
      ensures Core() && View() == Step(old(View()), PeriodTimerFires)
    {
      if state.Off? {
        return;
      }
      if running == 0 {
        // the driver would put the state back to Init here; it already is
        assert state.Init?;
        running := running + 1;
        queue := queue + [StartPeriod];
      }
    }

    // _c2h_snd_txbf: a report of the hardware, asked for or not
    method Report(ok: bool)
      requires Core()
      modifies this`queue
      ensures Core() && View() == Step(old(View()), ReportComes(ok))
    {
      queue := queue + [EndPeriod(ok)];
    }

    // The command thread takes the next command
    method Execute(scanning: bool)
      requires Core()
      modifies this
      ensures Core() && View() == Step(old(View()), ThreadRuns(scanning))
    {
      if queue == [] {
        return;
      }
      var c := queue[0];
      queue := queue[1..];
      match c {
        case StartPeriod => Handler(scanning);
        case EndPeriod(ok) => SoundingDown(ok, scanning);
      }
    }

    // The second loop of rtw_bf_update_traffic, at any time; sound: the entries that are to be sounded
    method UpdateTraffic(sound: set<nat>)
      requires Core()
      modifies this`bfee, this`state
      ensures Core() && View() == Traffic(old(View()), JudgedAll(old(View()).es, sound))
    {
      var setTimer := JudgeTraffic(sound);
      StartIfOff(setTimer);
    }

    method JudgeTraffic(sound: set<nat>) returns (setTimer: bool)
      requires Core()
      modifies this`bfee
      ensures Core() && Public(bfee) == JudgedAll(old(Public(bfee)), sound)
      ensures setTimer <==> Public(bfee) != old(Public(bfee))
    {
      setTimer := JudgeAll(sound);
      MarksKeepCore();
    }

    method StartIfOff(setTimer: bool)
      requires Core()
      modifies this`state
      ensures Core() && state == if old(state).Off? && setTimer then Init else old(state)
    {
      if setTimer && state.Off? {
        state := Init;
      }
    }

    method JudgeAll(sound: set<nat>) returns (setTimer: bool)
      requires |bfee| == ENTRIES
      modifies this`bfee
      ensures SameMarks(old(bfee), bfee) && Public(bfee) == JudgedAll(old(Public(bfee)), sound)
      ensures setTimer <==> Public(bfee) != old(Public(bfee))
    {
      setTimer := false;
      for i := 0 to ENTRIES
        invariant |bfee| == ENTRIES
        invariant forall j :: 0 <= j < i ==> bfee[j] == old(bfee)[j].(e := Judged(old(bfee)[j].e, j in sound))
        invariant forall j :: i <= j < ENTRIES ==> bfee[j] == old(bfee)[j]
        invariant setTimer <==> exists j :: 0 <= j < i && old(bfee)[j].e != bfee[j].e
      {
        var e := bfee[i].e;
        if e.used && i in sound && !e.apply {
          bfee := bfee[i := bfee[i].(e := e.(apply := true, soundCnt := 0))];
          setTimer := true;
        } else if e.used && i !in sound && e.apply {
          bfee := bfee[i := bfee[i].(e := e.(apply := false, delete := true, soundCnt := 0))];
          setTimer := true;
        }
      }
      JudgedPublic(old(bfee), bfee, sound);
    }

    // The hardware state and the suspension of an entry, which other code writes at any time
    method SetReady(i: nat, ready: bool, suspended: bool)
      requires Core() && i < ENTRIES
      modifies this`bfee
      ensures Core() && View() == Step(old(View()), EntryChanges(i, ready, suspended))
    {
      var b := bfee[i].(e := bfee[i].e.(ready := ready, suspended := suspended));
      PublicUpdate(bfee, i, b);
      bfee := bfee[i := b];
      MarksKeepCore();
    }

    // Beamformees come and go between periods
    method Reconfigure(bs: seq<Bfee>)
      requires Valid() && |bs| == ENTRIES && running == 0
      modifies this`bfee, this`state
      ensures Core() && View() == Step(old(View()), Reconfigured(Public(bs)))
    {
      bfee := bs;
      state := Init;
    }
  }

  function Fresh(es: seq<Entry>): (bs: seq<Bfee>)
    ensures |bs| == |es| && Public(bs) == es
  {
    var bs := seq(|es|, j requires 0 <= j < |es| => Bfee(es[j], false, false, false));
    assert Public(bs) == es;
    bs
  }

  /** Every run of the driver's machine is the run of the specification on the same events. */
  method Run(bs: seq<Bfee>, events: seq<Event>) returns (s: Sounder)
    requires |bs| == ENTRIES
    ensures s.Valid() && s.View() == RunFrom(Start(Public(bs)), events)
  {
    s := new Sounder(bs);
    assert events[..0] == [];
    for i := 0 to |events|
      invariant s.Valid() && fresh(s) && s.View() == RunFrom(Start(Public(bs)), events[..i])
    {
      assert events[..i + 1][..i] == events[..i];
      Perform(s, events[i]);
    }
    assert events[..|events|] == events;
  }

  method Perform(s: Sounder, e: Event)
    requires s.Valid()
    modifies s
    ensures s.Valid() && s.View() == Step(old(s.View()), e)
  {
    StepKeepsInv(s.View(), e);
    match e {
      case PeriodTimerFires => s.PeriodTimer();
      case TimeoutFires => s.TimeoutTimer();
      case ReportComes(ok) => s.Report(ok);
      case ThreadRuns(scanning) => s.Execute(scanning);
      case TrafficJudged(sound) => s.UpdateTraffic(sound);
      case EntryChanges(i, ready, suspended) =>
        if i < ENTRIES {
          s.SetReady(i, ready, suspended);
        }
      case Reconfigured(es) =>
        if |es| == ENTRIES && s.running == 0 {
          s.Reconfigure(Fresh(es));
        }
    }
  }
}
