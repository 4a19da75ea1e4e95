/**
 Where the outcomes of a sounding period come from: which targets the handler sounds and which it reports down
 at once, which event ended each sounding, which entries enter a plan and what a report, a refused period or a
 change of traffic makes of an entry.
 */
module SoundingOutcomes {
  import opened SoundingSpec

  // ----- one run of the handler

  // Target j is a single-user entry that is marked for deletion.
  predicate Marked(es: seq<Entry>, plan: seq<Target>, j: nat)
    requires j < |plan|
  {
    plan[j].Su? && plan[j].i < |es| && es[plan[j].i].delete
  }

  // Outcomes are added for marked entries that are reported down without a sounding.
  ghost predicate Passes(m: Machine, t: Machine) {
    && m.now.started <= |t.now.outcomes| <= |m.now.plan| && m.now.outcomes <= t.now.outcomes
    && (forall j :: m.now.started <= j < |t.now.outcomes| ==>
          Marked(m.es, m.now.plan, j) && t.now.outcomes[j] == Down(false))
  }

  // The mark of an entry that was passed over is cleared, and nothing else changes.
  ghost predicate MarksCleared(m: Machine, t: Machine)
    requires Passes(m, t)
  {
    && |t.es| == |m.es| && t.leaves == m.leaves
    && (forall i :: 0 <= i < |m.es| ==>
          t.es[i] ==
            if Su(i) in m.now.plan[m.now.started..|t.now.outcomes|] then m.es[i].(delete := false) else m.es[i])
  }

  // The target after those passed over is not marked and is started; without one the period closes.
  ghost predicate Stops(m: Machine, t: Machine)
    requires Passes(m, t)
  {
    var n := |t.now.outcomes|;
    if n < |m.now.plan| then
      && !Marked(m.es, m.now.plan, n) && t.now.started == n + 1 && t.history == m.history
      && t.state == (if m.now.plan[n].Su? then SuStart else MuStart)
    else
      t.state.Init? && t.history == m.history + [Period(m.now.plan, t.now.outcomes, n + 1)]
  }

  lemma PassOne(m: Machine, u: Machine)
    requires Between(m) && m.now.started < |m.now.plan| && Marked(m.es, m.now.plan, m.now.started)
    requires u == ReportedDown(Begun(m), false)
    ensures Between(u) && Passes(m, u) && MarksCleared(m, u)
    ensures u.now.started == |u.now.outcomes| == m.now.started + 1 && u.now.plan == m.now.plan
    ensures u.history == m.history
  {
  }

  lemma MarksStay(m: Machine, u: Machine, j: nat)
    requires Between(m) && m.now.started < j < |m.now.plan| && |u.now.outcomes| == m.now.started + 1
    requires Passes(m, u) && MarksCleared(m, u)
    ensures Marked(u.es, m.now.plan, j) <==> Marked(m.es, m.now.plan, j)
  {
    var plan, s := m.now.plan, m.now.started;
    assert plan[s] != plan[j];
    assert plan[s..s + 1] == [plan[s]];
  }

  lemma PassMore(m: Machine, u: Machine, t: Machine)
    requires Between(m) && m.now.started < |m.now.plan| && Passes(m, u) && MarksCleared(m, u)
    requires u.now.started == |u.now.outcomes| == m.now.started + 1 && u.now.plan == m.now.plan
    requires u.history == m.history && Passes(u, t) && MarksCleared(u, t) && Stops(u, t)
    ensures Passes(m, t) && MarksCleared(m, t) && Stops(m, t)
  {
    var plan, s, n := m.now.plan, m.now.started, |t.now.outcomes|;
    forall j | s < j < |plan| ensures Marked(u.es, plan, j) <==> Marked(m.es, plan, j) {
      MarksStay(m, u, j);
    }
    assert Passes(m, t);
    assert plan[s..n] == [plan[s]] + plan[s + 1..n];
    assert plan[s..s + 1] == [plan[s]];
  }

  lemma PassNone(m: Machine, t: Machine)
    requires Between(m) && t.es == m.es && t.leaves == m.leaves && t.now.outcomes == m.now.outcomes
    ensures Passes(m, t) && MarksCleared(m, t)
  {
    assert m.now.plan[m.now.started..|t.now.outcomes|] == [];
  }

  /** The handler passes over exactly the marked single-user entries at the head of what is left of the plan: each
      is reported down without a sounding and loses its mark.  The target that it starts is not marked; only if all
      that is left was passed over does the period close. */
  lemma {:induction false} GoPasses(m: Machine)
    requires Between(m)
    ensures Passes(m, Go(m)) && MarksCleared(m, Go(m)) && Stops(m, Go(m))
    decreases |m.now.plan| - m.now.started
  {
    if m.now.started < |m.now.plan| && Marked(m.es, m.now.plan, m.now.started) {
      var u := ReportedDown(Begun(m), false);
      PassOne(m, u);
      GoPasses(u);
      PassMore(m, u, Go(m));
    } else {
      PassNone(m, Go(m));
    }
  }

  // The next target of the plan, if it is the group or an entry that is not marked, is sounded at once.
  lemma NextIsSounded(m: Machine)
    requires Between(m) && m.now.started < |m.now.plan|
    requires m.now.plan[m.now.started].Su? ==> !m.es[m.now.plan[m.now.started].i].delete
    ensures var t := Go(m);
      && t.state == (if m.now.plan[m.now.started].Su? then SuStart else MuStart)
      && t.now.started == m.now.started + 1 && t.now.outcomes == m.now.outcomes && t.es == m.es
  {
    GoPasses(m);
    assert |Go(m).now.outcomes| == m.now.started;
  }

  // ----- where an outcome comes from

  predicate Sounding(s: State) {
    s.SuStart? || s.MuStart?
  }

  // Event e in state m gives target j of the plan the outcome o: the timeout of its sounding, the report that the
  // thread takes from the queue while the target is being sounded, or its deletion mark.
  predicate Gives(m: Machine, e: Event, plan: seq<Target>, j: nat, o: Outcome)
    requires j < |plan|
  {
    var current := Sounding(m.state) && m.now.plan == plan && m.now.started == j + 1;
    match o
    case Timeout => e.TimeoutFires? && current
    case Down(ok) =>
      && e.ThreadRuns? && m.queue != []
      && ((current && m.queue[0] == EndPeriod(ok)) || (!ok && Marked(m.es, plan, j)))
  }

  // The outcomes from number `from` on are given by event e.
  ghost predicate GivesFrom(m: Machine, e: Event, plan: seq<Target>, outcomes: seq<Outcome>, from: nat) {
    |outcomes| <= |plan| && forall j :: from <= j < |outcomes| ==> Gives(m, e, plan, j, outcomes[j])
  }

  // How many outcomes the period under way has.
  function Known(m: Machine): nat {
    if Open(m.state) then |m.now.outcomes| else 0
  }

  // All that an event adds to the outcomes of the period under way, or of the one it closes, is given by it.
  ghost predicate Given(m: Machine, e: Event, t: Machine) {
    && (t.history == m.history && Open(t.state) ==> GivesFrom(m, e, t.now.plan, t.now.outcomes, Known(m)))
    && (t.history != m.history && m.history <= t.history && |t.history| == |m.history| + 1 ==>
          !Open(t.state) && GivesFrom(m, e, t.history[|m.history|].plan, t.history[|m.history|].outcomes, Known(m)))
  }

  lemma PassGives(m: Machine, e: Event, u: Machine, t: Machine)
    requires e.ThreadRuns? && m.queue != [] && |m.es| == |u.es| && |u.now.outcomes| == u.now.started
    requires GivesFrom(m, e, u.now.plan, u.now.outcomes, Known(m)) && Passes(u, t)
    requires forall i :: 0 <= i < |m.es| && u.es[i].delete ==> m.es[i].delete
    ensures GivesFrom(m, e, u.now.plan, t.now.outcomes, Known(m))
  {
    var plan, all := u.now.plan, t.now.outcomes;
    forall j | Known(m) <= j < |all| ensures Gives(m, e, plan, j, all[j]) {
      if j < |u.now.outcomes| {
        assert all[j] == u.now.outcomes[j];
      } else {
        assert Marked(u.es, plan, j) && all[j] == Down(false);
      }
    }
  }

  lemma GoGives(m: Machine, e: Event, u: Machine)
    requires Between(u) && u.history == m.history && e.ThreadRuns? && m.queue != [] && |m.es| == |u.es|
    requires GivesFrom(m, e, u.now.plan, u.now.outcomes, Known(m))
    requires forall i :: 0 <= i < |m.es| && u.es[i].delete ==> m.es[i].delete
    ensures Given(m, e, Go(u))
  {
    GoPasses(u);
    GoMoves(u);
    PassGives(m, e, u, Go(u));
  }

  lemma StartGives(m: Machine, scanning: bool)
    requires Inv(m) && m.queue != [] && m.queue[0].StartPeriod?
    ensures Given(m, ThreadRuns(scanning), Handle(m.(queue := m.queue[1..]), scanning))
  {
    var q := m.(queue := m.queue[1..]);
    if m.state.Init? && NewPlan(m.es) != [] && !scanning {
      OpensWell(q);
      GoGives(m, ThreadRuns(scanning), Opened(q));
    } else if m.state.TimedOutState? {
      GoGives(m, ThreadRuns(scanning), q);
    }
  }

  lemma EndGives(m: Machine, scanning: bool, ok: bool)
    requires Inv(m) && m.queue != [] && m.queue[0] == EndPeriod(ok)
    ensures Given(m, ThreadRuns(scanning), SoundDown(m.(queue := m.queue[1..]), ok))
  {
    var q := m.(queue := m.queue[1..]);
    if Sounding(m.state) {
      DownIs(q, ok);
      GoGives(m, ThreadRuns(scanning), ReportedDown(q, ok));
    }
  }

  lemma StepGives(m: Machine, e: Event)
    requires Inv(m)
    ensures Given(m, e, Step(m, e))
  {
    if e.ThreadRuns? && m.queue != [] {
      if m.queue[0].StartPeriod? { StartGives(m, e.scanning); } else { EndGives(m, e.scanning, m.queue[0].ok); }
    }
  }

  // Some event of the run, while h periods were finished, gave target j of the plan the outcome o.
  ghost predicate Came(m: Machine, events: seq<Event>, h: nat, plan: seq<Target>, j: nat, o: Outcome)
    requires j < |plan|
  {
    exists i :: 0 <= i < |events| && CameAt(m, events, i, h, plan, j, o)
  }

  ghost predicate CameAt(m: Machine, events: seq<Event>, i: nat, h: nat, plan: seq<Target>, j: nat, o: Outcome)
    requires i < |events| && j < |plan|
  {
    var before := RunFrom(m, events[..i]);
    |before.history| == h && Gives(before, events[i], plan, j, o)
  }

  lemma CameEarlier(m: Machine, events: seq<Event>, e: Event, h: nat, plan: seq<Target>, j: nat, o: Outcome)
    requires j < |plan| && Came(m, events, h, plan, j, o)
    ensures Came(m, events + [e], h, plan, j, o)
  {
    var i :| 0 <= i < |events| && CameAt(m, events, i, h, plan, j, o);
    assert (events + [e])[..i] == events[..i];
    assert CameAt(m, events + [e], i, h, plan, j, o);
  }

  lemma CameLast(m: Machine, events: seq<Event>, e: Event, h: nat, plan: seq<Target>, j: nat, o: Outcome)
    requires j < |plan| && |RunFrom(m, events).history| == h && Gives(RunFrom(m, events), e, plan, j, o)
    ensures Came(m, events + [e], h, plan, j, o)
  {
    assert (events + [e])[..|events|] == events;
    assert CameAt(m, events + [e], |events|, h, plan, j, o);
  }

  // Every outcome of the period that was number h came from an event of the run.
  ghost predicate AllCame(m: Machine, events: seq<Event>, h: nat, plan: seq<Target>, outcomes: seq<Outcome>) {
    |outcomes| <= |plan| && forall j :: 0 <= j < |outcomes| ==> Came(m, events, h, plan, j, outcomes[j])
  }

  lemma AllCameMore(m: Machine, events: seq<Event>, e: Event, h: nat, plan: seq<Target>, was: seq<Outcome>,
                    now: seq<Outcome>)
    requires |RunFrom(m, events).history| == h && was <= now && AllCame(m, events, h, plan, was)
    requires GivesFrom(RunFrom(m, events), e, plan, now, |was|)
    ensures AllCame(m, events + [e], h, plan, now)
  {
    forall j | 0 <= j < |now| ensures Came(m, events + [e], h, plan, j, now[j]) {
      if j < |was| { CameEarlier(m, events, e, h, plan, j, now[j]); }
      else { CameLast(m, events, e, h, plan, j, now[j]); }
    }
  }

  lemma AllCameKept(m: Machine, events: seq<Event>, e: Event, h: nat, plan: seq<Target>, outcomes: seq<Outcome>)
    requires AllCame(m, events, h, plan, outcomes)
    ensures AllCame(m, events + [e], h, plan, outcomes)
  {
    forall j | 0 <= j < |outcomes| ensures Came(m, events + [e], h, plan, j, outcomes[j]) {
      CameEarlier(m, events, e, h, plan, j, outcomes[j]);
    }
  }

  // All outcomes of a state came from the run so far.
  ghost predicate HistoryCame(m: Machine, events: seq<Event>, t: Machine) {
    forall h :: 0 <= h < |t.history| ==> AllCame(m, events, h, t.history[h].plan, t.history[h].outcomes)
  }

  lemma PastCame(m: Machine, front: seq<Event>, e: Event, s: Machine, t: Machine)
    requires HistoryCame(m, front, s) && s.history <= t.history
    ensures forall h :: 0 <= h < |s.history| ==>
      AllCame(m, front + [e], h, t.history[h].plan, t.history[h].outcomes)
  {
    forall h | 0 <= h < |s.history|
      ensures AllCame(m, front + [e], h, t.history[h].plan, t.history[h].outcomes)
    {
      AllCameKept(m, front, e, h, s.history[h].plan, s.history[h].outcomes);
    }
  }

  lemma NowCame(m: Machine, front: seq<Event>, e: Event, s: Machine, t: Machine)
    requires s == RunFrom(m, front) && Given(s, e, t) && Moves(s, t)
    requires Open(s.state) ==> AllCame(m, front, |s.history|, s.now.plan, s.now.outcomes)
    ensures t.history == s.history && Open(t.state) ==>
      AllCame(m, front + [e], |s.history|, t.now.plan, t.now.outcomes)
    ensures t.history != s.history ==>
      AllCame(m, front + [e], |s.history|, t.history[|s.history|].plan, t.history[|s.history|].outcomes)
  {
    var was := if Open(s.state) then s.now.outcomes else [];
    if t.history != s.history {
      var p := t.history[|s.history|];
      AllCameMore(m, front, e, |s.history|, p.plan, was, p.outcomes);
    } else if Open(t.state) {
      AllCameMore(m, front, e, |s.history|, t.now.plan, was, t.now.outcomes);
    }
  }

  // Every outcome so far, of finished periods and of the one under way, came from the run.
  ghost predicate OutcomesCame(m: Machine, events: seq<Event>) {
    var t := RunFrom(m, events);
    HistoryCame(m, events, t) && (Open(t.state) ==> AllCame(m, events, |t.history|, t.now.plan, t.now.outcomes))
  }

  lemma CameStep(m: Machine, front: seq<Event>, e: Event, s: Machine, t: Machine)
    requires s == RunFrom(m, front) && t == RunFrom(m, front + [e])
    requires OutcomesCame(m, front) && Given(s, e, t) && Moves(s, t)
    ensures OutcomesCame(m, front + [e])
  {
    NowCame(m, front, e, s, t);
    PastCame(m, front, e, s, t);
  }

  lemma RunMore(m: Machine, front: seq<Event>, e: Event)
    ensures RunFrom(m, front + [e]) == Step(RunFrom(m, front), e)
  {
    assert (front + [e])[..|front|] == front;
  }

  /** In every run, every outcome of every finished period and of the one under way has its cause in the run: a
      timeout fired while that target was being sounded; or the thread took a report from the queue while that
      target was being sounded, and the outcome is what the report said; or the target is a single-user entry
      that was marked for deletion when the thread passed it, and the outcome is a failure. */
  lemma {:induction false} OutcomesHaveCauses(es: seq<Entry>, events: seq<Event>)
    requires |es| == ENTRIES
    ensures OutcomesCame(Start(es), events)
  {
    if events != [] {
      var front, e := events[..|events| - 1], events[|events| - 1];
      OutcomesHaveCauses(es, front);
      EveryRun(es, front);
      var s := RunFrom(Start(es), front);
      StepKeepsInv(s, e);
      StepGives(s, e);
      RunMore(Start(es), front, e);
      CameStep(Start(es), front, e, s, Step(s, e));
      assert front + [e] == events;
    }
  }

  // ----- what an event does to a sounding

  // The timeout of a sounding ends it as such and leaves the rest of the plan to one more run of the handler.
  lemma TimeoutEnds(m: Machine)
    requires Inv(m) && Sounding(m.state)
    ensures var t := Step(m, TimeoutFires);
      && t.state.TimedOutState? && t.now.outcomes == m.now.outcomes + [Timeout]
      && |t.now.outcomes| == t.now.started && t.queue == m.queue + [StartPeriod] && t.es == m.es
  {
  }

  /** The report of a sounding ends it with what the report says and goes to the entry that was sounded: a success
      clears its failures, a failure counts, unless the entry was marked for deletion; at 31 in a row the entry is
      to leave.  The report of the group goes to no entry. */
  lemma ReportEnds(m: Machine, ok: bool)
    requires |m.es| == ENTRIES && PhaseOk(m) && Sounding(m.state)
    ensures var j := m.now.started - 1;
      var t := ReportedDown(m, ok);
      && t.now.outcomes == m.now.outcomes + [Down(ok)] && |t.now.outcomes| == j + 1 && |t.es| == |m.es|
      && SoundDown(m, ok) == Go(t)
      && (m.now.plan[j].Mu? ==> t.es == m.es && t.leaves == m.leaves)
      && (m.now.plan[j].Su? ==>
            var i := m.now.plan[j].i;
            var e := m.es[i];
            && t.es[i].failCnt == (if ok then 0 else if e.delete then e.failCnt else (e.failCnt + 1) % 32)
            && t.es[i].delete == (ok && e.delete)
            && t.es[i] == e.(failCnt := t.es[i].failCnt, delete := t.es[i].delete)
            && (forall k :: 0 <= k < |m.es| && k != i ==> t.es[k] == m.es[k])
            && t.leaves == (if !ok && !e.delete && e.failCnt % 32 == 30 then m.leaves + [i] else m.leaves))
  {
  }

  // n failing reports in a row.
  function Failing(e: Entry, n: nat): Entry {
    if n == 0 then e else Reported(Failing(e, n - 1), false)
  }

  lemma ModStep(n: nat)
    ensures (n % 32 + 1) % 32 == (n + 1) % 32
  {
  }

  // An entry that is not marked is told to leave by the 31st failure in a row, and by no earlier one.
  lemma {:induction false} FailuresInARow(e: Entry, n: nat)
    requires !e.delete && e.failCnt == 0
    ensures Failing(e, n) == e.(failCnt := n % 32)
    ensures DropsEntry(Failing(e, n), false) <==> n % 32 == 30
  {
    if n > 0 {
      FailuresInARow(e, n - 1);
      ModStep(n - 1);
    }
  }

  // ----- which entries a period lists

  // Sounded alone: marked, or applying and not suspended.
  predicate SuDue(e: Entry) {
    e.used && e.ready && e.soundCnt <= 1 && e.cap.SuCap? && (e.delete || (e.apply && !e.suspended))
  }

  predicate MuDue(e: Entry) {
    e.used && e.ready && e.soundCnt <= 1 && e.cap.MuCap? && e.apply
  }

  // A new period sounds the group exactly if some group entry is due.
  lemma GroupListed(es: seq<Entry>)
    ensures Mu in NewPlan(es) <==> exists j :: 0 <= j < |es| && MuDue(es[j])
  {
    var su, mu := FirstDue(es, |es|, SuCap), FirstDue(es, |es|, MuCap);
    FirstDueIs(es, |es|, MuCap);
    assert mu != [] ==> NewPlan(es)[|su|] == Mu && MuDue(es[mu[0]]);
    assert forall j :: 0 <= j < |es| ==> (MuDue(es[j]) <==> DueAs(es[j], MuCap));
  }

  lemma Listed(es: seq<Entry>, i: nat)
    ensures Su(i) in NewPlan(es) <==> i in FirstDue(es, |es|, SuCap)
  {
    var su, plan := FirstDue(es, |es|, SuCap), NewPlan(es);
    assert forall k :: 0 <= k < |su| ==> plan[k] == Su(su[k]);
    assert |plan| > |su| ==> plan[|su|] == Mu;
  }

  /** It sounds a single-user entry exactly if the entry is due and fewer than two due ones come before it. */
  lemma EntryListed(es: seq<Entry>, i: nat)
    requires i < |es|
    ensures Su(i) in NewPlan(es) <==>
      SuDue(es[i]) && !exists a, b :: 0 <= a < b < i && SuDue(es[a]) && SuDue(es[b])
  {
    var su := FirstDue(es, |es|, SuCap);
    Listed(es, i);
    FirstDueIs(es, |es|, SuCap);
    assert forall j :: 0 <= j < |es| ==> (SuDue(es[j]) <==> DueAs(es[j], SuCap));
    if SuDue(es[i]) && i !in su {
      assert su[0] < su[1] < i && SuDue(es[su[0]]) && SuDue(es[su[1]]);
    }
  }

  lemma CountsDown(es: seq<Entry>, j: nat)
    requires j < |es| && es[j].used && es[j].ready && es[j].soundCnt > 1
    ensures CountedAll(es)[j] == es[j].(soundCnt := es[j].soundCnt - 1)
    ensures Su(j) !in NewPlan(es)
  {
    EntryListed(es, j);
  }

  // The entries before each of several periods in a row, as far as entry j is concerned: nothing but the opening
  // of a period changes it.
  ghost predicate Periods(ess: seq<seq<Entry>>, j: nat) {
    && (forall k :: 0 <= k < |ess| ==> j < |ess[k]|)
    && (forall k :: 0 < k < |ess| ==> ess[k][j] == CountedAll(ess[k - 1])[j])
  }

  /** An entry that counts c more periods loses one with each and is in none of the next c - 1 plans. */
  lemma {:induction false} WaitsItsTurn(ess: seq<seq<Entry>>, j: nat, n: nat)
    requires Periods(ess, j) && n < |ess| && ess[0][j].used && ess[0][j].ready && n < ess[0][j].soundCnt
    ensures ess[n][j] == ess[0][j].(soundCnt := ess[0][j].soundCnt - n)
    ensures n < ess[0][j].soundCnt - 1 ==> Su(j) !in NewPlan(ess[n])
  {
    if n > 0 {
      WaitsItsTurn(ess, j, n - 1);
      CountsDown(ess[n - 1], j);
    }
    if n < ess[0][j].soundCnt - 1 { CountsDown(ess[n], j); }
  }

  /** An entry that a plan lists is counted anew from its period; a marked one is not. */
  lemma CountsAnew(es: seq<Entry>, j: nat)
    requires j < |es| && Su(j) in NewPlan(es)
    ensures CountedAll(es)[j] == es[j].(soundCnt := if es[j].delete then 0 else es[j].reload)
  {
    Listed(es, j);
    EntryListed(es, j);
  }

  // The entry is the group's, due, and among the first six such.
  ghost predicate InGroup(es: seq<Entry>, j: nat)
    requires j < |es|
  {
    MuDue(es[j]) && j in FirstDue(es, |es|, MuCap)
  }

  /** A due entry that finds no room in the plan stays due: for the group, only behind six others. */
  lemma StaysDue(es: seq<Entry>, j: nat)
    requires j < |es| && es[j].used && es[j].ready && es[j].soundCnt <= 1
    ensures Su(j) !in NewPlan(es) && !InGroup(es, j) ==> CountedAll(es)[j] == es[j].(soundCnt := 0)
    ensures MuDue(es[j]) && InGroup(es, j) ==> CountedAll(es)[j] == es[j].(soundCnt := es[j].reload)
    ensures MuDue(es[j]) && !InGroup(es, j) ==>
      exists l: seq<nat> :: |l| == 6 && forall k :: 0 <= k < 6 ==> l[k] < j && MuDue(es[l[k]])
  {
    var mu := FirstDue(es, |es|, MuCap);
    Listed(es, j);
    FirstDueIs(es, |es|, MuCap);
    FirstDueIs(es, |es|, SuCap);
    assert forall i :: 0 <= i < |es| ==> (MuDue(es[i]) <==> DueAs(es[i], MuCap));
    if MuDue(es[j]) && j !in mu {
      assert |mu| == 6 && forall k :: 0 <= k < 6 ==> mu[k] < j && MuDue(es[mu[k]]);
    }
  }

  // ----- periods that are not opened

  ghost predicate NothingReady(es: seq<Entry>) {
    forall j :: 0 <= j < |es| && es[j].used ==> !es[j].ready
  }

  lemma {:induction false} NoneDue(es: seq<Entry>, n: nat, cap: Cap)
    requires n <= |es| && NothingReady(es)
    ensures FirstDue(es, n, cap) == []
  {
    if n > 0 { NoneDue(es, n - 1, cap); }
  }

  lemma NothingDue(es: seq<Entry>)
    requires NothingReady(es)
    ensures NewPlan(es) == [] && CountedAll(es) == es
  {
    NoneDue(es, |es|, SuCap);
    NoneDue(es, |es|, MuCap);
  }

  // n starts of the handler in a row that find nothing to open.
  function RefusedTimes(m: Machine, n: nat): Machine {
    if n == 0 then m else Refused(RefusedTimes(m, n - 1))
  }

  lemma RefusedOnce(m: Machine)
    requires m.state.Init? && SomeNotReady(m.es) && NothingReady(m.es)
    ensures var t := Refused(m);
      && t.es == m.es && t.history == m.history
      && (if m.waitCnt < 5 then t.state.Init? && t.waitCnt == m.waitCnt + 1 else t.state.Off?)
  {
    NothingDue(m.es);
  }

  /** While no entry is ready but some entry is used, the machine waits for five periods and goes off at the next. */
  lemma {:induction false} GivesUp(m: Machine, n: nat)
    requires m.state.Init? && m.waitCnt == 0 && n <= 6 && SomeNotReady(m.es) && NothingReady(m.es)
    ensures var t := RefusedTimes(m, n);
      && t.es == m.es && t.history == m.history
      && (if n <= 5 then t.state.Init? && t.waitCnt == n else t.state.Off?)
  {
    if n > 0 {
      GivesUp(m, n - 1);
      RefusedOnce(RefusedTimes(m, n - 1));
    }
  }

  // A start of the handler opens a period with the new plan unless the plan is empty or the station is scanning.
  lemma PeriodOpens(m: Machine)
    requires |m.es| == ENTRIES && m.state.Init? && NewPlan(m.es) != []
    ensures var t := Handle(m, false);
      && (Open(t.state) ==> t.history == m.history && t.now.plan == NewPlan(m.es))
      && (!Open(t.state) ==> |t.history| == |m.history| + 1 && t.history[|m.history|].plan == NewPlan(m.es))
  {
    OpensWell(m);
    GoMoves(Opened(m));
  }

  /** Otherwise none is opened or recorded, and the machine goes off exactly if nothing is to be sounded and no used
      entry is waited for or five periods have been waited already. */
  lemma PeriodRefused(m: Machine, scanning: bool)
    requires m.state.Init? && (NewPlan(m.es) == [] || scanning)
    ensures var t := Handle(m, scanning);
      && t.history == m.history && t.running == m.running - 1 && (t.state.Init? || t.state.Off?)
      && (t.state.Off? <==>
            NewPlan(m.es) == [] && (m.waitCnt >= 5 || !exists j :: 0 <= j < |m.es| && m.es[j].used && !m.es[j].ready))
      && t.waitCnt ==
           (if NewPlan(m.es) == [] && !t.state.Off? then m.waitCnt + 1 else 0)
  {
  }

  // The timer starts a period unless one is running or the machine is off.
  lemma TimerStarts(m: Machine)
    requires Inv(m)
    ensures var t := Step(m, PeriodTimerFires);
      if m.state.Init? && m.running == 0 then t == m.(running := 1, queue := m.queue + [StartPeriod]) else t == m
  {
  }

  // ----- traffic

  /** A used entry applies exactly if its traffic was judged so; one that stops applying is marked for deletion, and
      an entry that changes is due at once.  A machine that was off starts exactly if some entry changed. */
  lemma TrafficTells(m: Machine, sound: set<nat>)
    ensures var t := Step(m, TrafficJudged(sound));
      && |t.es| == |m.es|
      && (forall j :: 0 <= j < |m.es| ==>
            && (m.es[j].used ==> (t.es[j].apply <==> j in sound))
            && (t.es[j].delete <==> m.es[j].delete || (m.es[j].used && m.es[j].apply && j !in sound))
            && t.es[j].soundCnt == (if m.es[j].apply != t.es[j].apply then 0 else m.es[j].soundCnt)
            && t.es[j] == m.es[j].(apply := t.es[j].apply, delete := t.es[j].delete, soundCnt := t.es[j].soundCnt))
      && (m.state.Off? ==>
            (t.state.Init? <==> exists j :: 0 <= j < |m.es| && m.es[j].used && m.es[j].apply != (j in sound)))
      && (!m.state.Off? || !t.state.Init? ==> t.state == m.state)
  {
    var es := JudgedAll(m.es, sound);
    if es == m.es {
      forall j | 0 <= j < |m.es| ensures !m.es[j].used || m.es[j].apply == (j in sound) {
        assert es[j] == Judged(m.es[j], j in sound);
      }
    } else {
      assert exists j :: 0 <= j < |m.es| && es[j] != m.es[j];
    }
  }
}
