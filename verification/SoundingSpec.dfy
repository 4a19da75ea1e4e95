/**
 What the sounding machine of rtw_beamforming.c does, event by event, without the lists, marks and flags with
 which the driver keeps track of it: a period has a plan, the targets of the plan are started in order, each
 sounding ends in a report or a timeout, and the period closes after the last one.  Sounding proves that the
 driver's code does this.
 */
module SoundingSpec {

  const MAX_SU: nat := 2
  const MAX_MU: nat := 6
  const ENTRIES: nat := 8

  datatype State = Off | Init | SuStart | SuSounddown | MuStart | MuSounddown | TimedOutState
  datatype Cap = NoCap | SuCap | MuCap

  // What the rest of the driver sees of a beamformee.  ready: BEAMFORM_ENTRY_HW_STATE_ADDED; reload: sound_period /
  // min_sounding_period; suspended: bSuspendSUCap; failCnt: the five bits of LogStatusFailCnt
  datatype Entry = Entry(used: bool, ready: bool, cap: Cap, soundCnt: nat, reload: nat, apply: bool, delete: bool,
                         suspended: bool, failCnt: nat)

  datatype Cmd = StartPeriod | EndPeriod(ok: bool)

  datatype Target = Su(i: nat) | Mu
  datatype Outcome = Down(ok: bool) | Timeout

  // A finished period: what was planned, how each sounding ended, how often the handler ran.
  datatype Period = Period(plan: seq<Target>, outcomes: seq<Outcome>, runs: nat)

  // A period under way: `started` targets of the plan have been started.
  datatype Progress = Progress(plan: seq<Target>, started: nat, outcomes: seq<Outcome>, runs: nat)

  datatype Machine = Machine(es: seq<Entry>, state: State, waitCnt: nat, running: int, queue: seq<Cmd>,
                             leaves: seq<nat>,
                             now: Progress, history: seq<Period>)

  // The states in which _sounding_handler does nothing.
  predicate Deaf(s: State) {
    s.Off? || s.SuStart? || s.MuStart?
  }

  // ----- the plan of a period

  // Whether an entry is to be sounded in this period, alone or with the group.
  predicate DueAs(e: Entry, cap: Cap) {
    && e.used && e.ready && e.soundCnt <= 1 && e.cap == cap
    && (if cap.MuCap? then e.apply else e.delete || (e.apply && !e.suspended))
  }

  function Most(cap: Cap): nat {
    if cap.MuCap? then MAX_MU else MAX_SU
  }

  // The first due entries of a kind among the first n, as many as there is room for.
  function FirstDue(es: seq<Entry>, n: nat, cap: Cap): (l: seq<nat>)
    requires n <= |es|
    ensures |l| <= Most(cap)
  {
    if n == 0 then [] else
      var l := FirstDue(es, n - 1, cap);
      if DueAs(es[n - 1], cap) && |l| < Most(cap) then l + [n - 1] else l
  }

  // The countdown of an entry to its next sounding.
  function Counted(e: Entry, listed: bool): Entry {
    if !e.used || !e.ready then e
    else if e.soundCnt > 1 then e.(soundCnt := e.soundCnt - 1)
    else e.(soundCnt := if listed && !(e.cap.SuCap? && e.delete) then e.reload else 0)
  }

  function SuTargets(su: seq<nat>): (r: seq<Target>)
    ensures |r| == |su| && forall i :: 0 <= i < |su| ==> r[i] == Su(su[i])
  {
    seq(|su|, i requires 0 <= i < |su| => Su(su[i]))
  }

  function PlanOf(su: seq<nat>, mu: bool): (r: seq<Target>)
    ensures |r| == |su| + if mu then 1 else 0
  {
    SuTargets(su) + if mu then [Mu] else []
  }

  function NewPlan(es: seq<Entry>): seq<Target> {
    PlanOf(FirstDue(es, |es|, SuCap), FirstDue(es, |es|, MuCap) != [])
  }

  function CountedAll(es: seq<Entry>): (r: seq<Entry>)
    ensures |r| == |es|
  {
    var su, mu := FirstDue(es, |es|, SuCap), FirstDue(es, |es|, MuCap);
    seq(|es|, j requires 0 <= j < |es| => Counted(es[j], j in su || j in mu))
  }

  predicate SomeNotReady(es: seq<Entry>) {
    exists j :: 0 <= j < |es| && es[j].used && !es[j].ready
  }

  // ----- the handler

  // A report for an entry; the entry is to be dropped when its five-bit count of failures reaches 31.
  function Reported(e: Entry, ok: bool): Entry {
    if ok then e.(failCnt := 0)
    else if e.delete then e.(delete := false)
    else e.(failCnt := (e.failCnt + 1) % 32)
  }

  predicate DropsEntry(e: Entry, ok: bool) {
    !ok && !e.delete && (e.failCnt + 1) % 32 > 30
  }

  // The single-user entry that is being sounded, or none.
  function Current(m: Machine): nat {
    if m.state.SuStart? && 0 < m.now.started <= |m.now.plan| && m.now.plan[m.now.started - 1].Su?
    then m.now.plan[m.now.started - 1].i else |m.es|
  }

  // Entry i takes the report.
  function EntryReported(m: Machine, i: nat, ok: bool): Machine {
    if i >= |m.es| then m
    else m.(es := m.es[i := Reported(m.es[i], ok)],
            leaves := if DropsEntry(m.es[i], ok) then m.leaves + [i] else m.leaves)
  }

  // The sounding under way is reported down.
  function ReportedDown(m: Machine, ok: bool): Machine {
    EntryReported(m, Current(m), ok).(state := if m.state.SuStart? then SuSounddown else MuSounddown,
                                      now := m.now.(outcomes := m.now.outcomes + [Down(ok)]))
  }

  // The next target of the plan is started.
  function Begun(m: Machine): Machine
    requires m.now.started < |m.now.plan|
  {
    m.(state := if m.now.plan[m.now.started].Su? then SuStart else MuStart,
       now := m.now.(runs := m.now.runs + 1, started := m.now.started + 1))
  }

  // The period closes.
  function Closed(m: Machine): Machine {
    var runs := m.now.runs + 1;
    m.(state := Init, running := m.running - 1, now := m.now.(runs := runs),
       history := m.history + [Period(m.now.plan, m.now.outcomes, runs)])
  }

  // The next target of the plan is an entry to delete.
  predicate Deletes(m: Machine)
    requires m.now.started < |m.now.plan|
  {
    var target := m.now.plan[m.now.started];
    target.Su? && target.i < |m.es| && m.es[target.i].delete
  }

  // One run of the handler inside a period: the next target of the plan is started, or the period closes.  An
  // entry to delete is not sounded but reported down at once, and the handler runs again.
  function Go(m: Machine): Machine
    decreases if m.now.started <= |m.now.plan| then |m.now.plan| - m.now.started else 0
  {
    if m.now.started >= |m.now.plan| then Closed(m)
    else if Deletes(m) then Go(ReportedDown(Begun(m), false))
    else Begun(m)
  }

  function Opened(m: Machine): Machine {
    m.(es := CountedAll(m.es), now := Progress(NewPlan(m.es), 0, [], 0), waitCnt := 0)
  }

  // No period is opened: nothing to sound, nothing ready, or the station is scanning.
  function Refused(m: Machine): Machine {
    var o := Opened(m).(running := m.running - 1);
    if o.now.plan != [] then o
    else if SomeNotReady(m.es) && m.waitCnt < 5 then o.(waitCnt := m.waitCnt + 1)
    else o.(state := Off)
  }

  // _sounding_handler
  function Handle(m: Machine, scanning: bool): Machine {
    if Deaf(m.state) then m
    else if !m.state.Init? then Go(m)
    else if NewPlan(m.es) != [] && !scanning then Go(Opened(m))
    else Refused(m)
  }

  // _beamforming_sounding_down
  function SoundDown(m: Machine, ok: bool): Machine {
    if m.state.SuStart? || m.state.MuStart? then Go(ReportedDown(m, ok)) else m
  }

  // ----- events

  datatype Event =
    | PeriodTimerFires
    | TimeoutFires
    | ReportComes(ok: bool)
    | ThreadRuns(scanning: bool)
    | TrafficJudged(sound: set<nat>)
    | EntryChanges(i: nat, ready: bool, suspended: bool)
    | Reconfigured(es: seq<Entry>)

  // What the traffic of an entry makes of it.
  function Judged(e: Entry, sound: bool): Entry {
    if !e.used || e.apply == sound then e
    else if sound then e.(apply := true, soundCnt := 0)
    else e.(apply := false, delete := true, soundCnt := 0)
  }

  function JudgedAll(es: seq<Entry>, sound: set<nat>): (r: seq<Entry>)
    ensures |r| == |es|
  {
    seq(|es|, j requires 0 <= j < |es| => Judged(es[j], j in sound))
  }

  // Entries as their traffic makes them; a machine that is off starts when one changes.
  function Traffic(m: Machine, es: seq<Entry>): Machine {
    m.(es := es, state := if m.state.Off? && es != m.es then Init else m.state)
  }

  function Executed(m: Machine, c: Cmd, scanning: bool): Machine {
    match c
    case StartPeriod => Handle(m, scanning)
    case EndPeriod(ok) => SoundDown(m, ok)
  }

  function Step(m: Machine, e: Event): Machine {
    match e
    case PeriodTimerFires =>
      if m.state.Off? || m.running != 0 then m
      else m.(state := Init, running := 1, queue := m.queue + [StartPeriod])
    case TimeoutFires =>
      if m.state.SuStart? || m.state.MuStart? then
        m.(state := TimedOutState, now := m.now.(outcomes := m.now.outcomes + [Timeout]),
           queue := m.queue + [StartPeriod])
      else m
    case ReportComes(ok) => m.(queue := m.queue + [EndPeriod(ok)])
    case ThreadRuns(scanning) => if m.queue == [] then m else Executed(m.(queue := m.queue[1..]), m.queue[0], scanning)
    case TrafficJudged(sound) => Traffic(m, JudgedAll(m.es, sound))
    case EntryChanges(i, ready, suspended) =>
      if i < |m.es| then m.(es := m.es[i := m.es[i].(ready := ready, suspended := suspended)]) else m
    case Reconfigured(es) => // between periods only
      if |es| == ENTRIES && m.running == 0 then m.(es := es, state := Init) else m
  }

  function Start(es: seq<Entry>): Machine {
    Machine(es, Init, 0, 0, [], [], Progress([], 0, [], 0), [])
  }

  function RunFrom(m: Machine, events: seq<Event>): Machine {
    if events == [] then m else Step(RunFrom(m, events[..|events| - 1]), events[|events| - 1])
  }

  // ----- what holds in every run

  ghost predicate Distinct(p: seq<Target>) {
    forall i, j :: 0 <= i < j < |p| ==> p[i] != p[j]
  }

  function Singles(p: seq<Target>): nat {
    if Mu in p && |p| > 0 then |p| - 1 else |p|
  }

  // No target twice, the group at most once and last, at most MAX_SU single-user entries.
  ghost predicate GoodPlan(p: seq<Target>) {
    && Distinct(p) && |p| <= MAX_SU + 1 && Singles(p) <= MAX_SU
    && (forall i :: 0 <= i < |p| && p[i].Mu? ==> i == |p| - 1)
    && (forall i :: 0 <= i < |p| && p[i].Su? ==> p[i].i < ENTRIES)
  }

  // A finished period: every target started once, in order, and ended once; and the handler ran at most twice more
  // than there are single-user entries in the plan.
  ghost predicate Complete(p: Period) {
    GoodPlan(p.plan) && |p.outcomes| == |p.plan| && p.runs == |p.plan| + 1 && p.runs <= Singles(p.plan) + 2
  }

  // The period under way.
  ghost predicate ProgressOk(p: Progress, pending: bool) {
    && GoodPlan(p.plan) && 0 < p.started <= |p.plan| && p.runs == p.started
    && |p.outcomes| + (if pending then 1 else 0) == p.started
  }

  function StartCount(q: seq<Cmd>): nat {
    if q == [] then 0 else (if q[0].StartPeriod? then 1 else 0) + StartCount(q[1..])
  }

  lemma {:induction false} CountAppend(q: seq<Cmd>, c: Cmd)
    ensures StartCount(q + [c]) == StartCount(q) + if c.StartPeriod? then 1 else 0
  {
    if q != [] {
      CountAppend(q[1..], c);
      assert (q + [c])[1..] == q[1..] + [c];
    }
  }

  // `running` is one exactly from the timer that opens a period to its end, and then there is either a sounding
  // under way or exactly one queued start of the handler, never both.
  predicate Accounted(m: Machine) {
    match m.state
    case Off => m.running == 0 && StartCount(m.queue) == 0
    case Init => m.running == StartCount(m.queue) <= 1
    case TimedOutState => m.running == 1 && StartCount(m.queue) == 1
    case _ => m.running == 1 && StartCount(m.queue) == 0
  }

  ghost predicate PhaseOk(m: Machine) {
    match m.state
    case Off => true
    case Init => true
    case SuStart => ProgressOk(m.now, true) && m.now.plan[m.now.started - 1].Su?
    case MuStart => ProgressOk(m.now, true) && m.now.plan[m.now.started - 1].Mu?
    case TimedOutState => ProgressOk(m.now, false)
    case _ => false
  }

  ghost predicate Inv(m: Machine) {
    |m.es| == ENTRIES && PhaseOk(m) && Accounted(m) && forall p :: p in m.history ==> Complete(p)
  }

  // ----- plans are good

  lemma {:induction false} FirstDueIs(es: seq<Entry>, n: nat, cap: Cap)
    requires n <= |es|
    ensures var l := FirstDue(es, n, cap);
      && (forall k :: 0 <= k < |l| ==> l[k] < n && DueAs(es[l[k]], cap))
      && (forall k, j :: 0 <= k < j < |l| ==> l[k] < l[j])
      && (forall j :: 0 <= j < n && DueAs(es[j], cap) ==> j in l || (|l| == Most(cap) && forall k :: 0 <= k < |l| ==>
            l[k] < j))
  {
    if n > 0 { FirstDueIs(es, n - 1, cap); }
  }

  lemma PlanIsGood(su: seq<nat>, mu: bool)
    requires |su| <= MAX_SU && (forall k :: 0 <= k < |su| ==> su[k] < ENTRIES)
    requires forall k, j :: 0 <= k < j < |su| ==> su[k] != su[j]
    ensures GoodPlan(PlanOf(su, mu)) && Singles(PlanOf(su, mu)) == |su|
  {
    if mu { assert PlanOf(su, mu)[|su|] == Mu; }
  }

  lemma NewPlanIsGood(es: seq<Entry>)
    requires |es| == ENTRIES
    ensures GoodPlan(NewPlan(es))
  {
    FirstDueIs(es, |es|, SuCap);
    PlanIsGood(FirstDue(es, |es|, SuCap), FirstDue(es, |es|, MuCap) != []);
  }

  // ----- one run of the handler

  // Between soundings, or before the first one.
  ghost predicate Between(m: Machine) {
    && |m.es| == ENTRIES && GoodPlan(m.now.plan) && m.now.started <= |m.now.plan|
    && m.now.runs == m.now.started == |m.now.outcomes|
  }

  // The period goes on: its plan stays, no target is started again, outcomes are only added.
  ghost predicate GoesOn(m: Machine, t: Machine) {
    && t.history == m.history && t.running == m.running
    && t.now.plan == m.now.plan && t.now.started > m.now.started && m.now.outcomes <= t.now.outcomes
    && (t.state.SuStart? || t.state.MuStart?) && PhaseOk(t)
  }

  // The period closes with its whole plan sounded.
  ghost predicate Closes(m: Machine, t: Machine) {
    && t.state.Init? && t.running == m.running - 1
    && t.now.plan == m.now.plan && t.now.started == |m.now.plan| && m.now.outcomes <= t.now.outcomes
    && t.history == m.history + [Period(m.now.plan, t.now.outcomes, t.now.runs)]
    && Complete(Period(m.now.plan, t.now.outcomes, t.now.runs))
  }

  lemma DownIs(m: Machine, ok: bool)
    requires |m.es| == ENTRIES && PhaseOk(m) && (m.state.SuStart? || m.state.MuStart?)
    ensures var t := ReportedDown(m, ok);
      && Between(t) && t.now == m.now.(outcomes := m.now.outcomes + [Down(ok)])
      && t.history == m.history && t.running == m.running && t.queue == m.queue
  {
  }

  /** One run of the handler inside a period, however many entries it deletes on its way, starts a target that was
      not started before or closes the period; its plan stays. */
  lemma {:induction false} GoMoves(m: Machine)
    requires Between(m)
    ensures Go(m).queue == m.queue && |Go(m).es| == ENTRIES
    ensures GoesOn(m, Go(m)) || Closes(m, Go(m))
    decreases |m.now.plan| - m.now.started
  {
    if m.now.started < |m.now.plan| && Deletes(m) {
      DownIs(Begun(m), false);
      GoMoves(ReportedDown(Begun(m), false));
    }
  }

  // ----- every event

  predicate Open(s: State) {
    s.SuStart? || s.MuStart? || s.TimedOutState?
  }

  // An event inside a period: the period goes on with its plan, what was started and how that ended, or closes with
  // its whole plan sounded.  Outside a period at most one period is completed.
  ghost predicate Moves(m: Machine, t: Machine) {
    && m.history <= t.history && |t.history| <= |m.history| + 1
    && (Open(m.state) && t.history == m.history ==>
          && Open(t.state) && t.now.plan == m.now.plan && t.now.started >= m.now.started
          && m.now.outcomes <= t.now.outcomes)
    && (Open(m.state) && t.history != m.history ==>
          && t.state.Init? && t.history[|m.history|].plan == m.now.plan
          && m.now.outcomes <= t.history[|m.history|].outcomes)
  }

  lemma OpensWell(m: Machine)
    requires |m.es| == ENTRIES
    ensures Between(Opened(m)) && Opened(m).now.started == 0
  {
    NewPlanIsGood(m.es);
  }

  // A run of the handler, without the accounts of the queue.
  ghost predicate HandledOk(m: Machine, t: Machine) {
    && |t.es| == ENTRIES && PhaseOk(t) && Moves(m, t) && t.queue == m.queue
    && (forall p :: p in t.history ==> Complete(p))
    && (if t.state.Off? || t.state.Init? then t.running == 0
        else t.running == 1 && (t.state.SuStart? || t.state.MuStart?))
  }

  lemma OpenMoves(m: Machine, scanning: bool)
    requires |m.es| == ENTRIES && m.state.Init? && m.running == 1 && forall p :: p in m.history ==> Complete(p)
    ensures HandledOk(m, Handle(m, scanning))
  {
    OpensWell(m);
    if NewPlan(m.es) != [] && !scanning {
      GoMoves(Opened(m));
      OpenedMoves(m, Opened(m), Go(Opened(m)));
    }
  }

  lemma OpenedMoves(m: Machine, o: Machine, t: Machine)
    requires m.state.Init? && m.running == 1 && forall p :: p in m.history ==> Complete(p)
    requires o.history == m.history && o.running == m.running && o.queue == m.queue
    requires t.queue == o.queue && |t.es| == ENTRIES && (GoesOn(o, t) || Closes(o, t))
    ensures HandledOk(m, t)
  {
  }

  lemma GoneOn(m: Machine)
    requires Between(m) && m.state.TimedOutState? && m.running == 1 && forall p :: p in m.history ==> Complete(p)
    ensures HandledOk(m, Go(m)) && (Go(m).history != m.history || Go(m).now.started > m.now.started)
  {
    GoMoves(m);
  }

  lemma HandleMoves(m: Machine, scanning: bool)
    requires |m.es| == ENTRIES && PhaseOk(m) && m.running == 1 && !Deaf(m.state)
    requires forall p :: p in m.history ==> Complete(p)
    ensures var t := Handle(m, scanning);
      HandledOk(m, t) && (m.state.TimedOutState? ==> t.history != m.history || t.now.started > m.now.started)
  {
    if m.state.Init? { OpenMoves(m, scanning); } else { GoneOn(m); }
  }

  lemma SoundDownMoves(m: Machine, ok: bool)
    requires |m.es| == ENTRIES && PhaseOk(m) && (m.state.SuStart? || m.state.MuStart?)
    requires m.running == 1 && forall p :: p in m.history ==> Complete(p)
    ensures var t := SoundDown(m, ok);
      HandledOk(m, t) && !t.state.Off? && (t.history != m.history || t.now.started > m.now.started)
  {
    DownIs(m, ok);
    GoMoves(ReportedDown(m, ok));
  }

  // The event makes the handler run inside a period.
  predicate Effective(m: Machine, e: Event) {
    && e.ThreadRuns? && m.queue != []
    && (if m.queue[0].StartPeriod? then m.state.TimedOutState? else m.state.SuStart? || m.state.MuStart?)
  }

  lemma StartKeepsInv(m: Machine, scanning: bool)
    requires Inv(m) && m.queue != [] && m.queue[0].StartPeriod?
    ensures var t := Handle(m.(queue := m.queue[1..]), scanning);
      Inv(t) && Moves(m, t) && (m.state.TimedOutState? ==> t.history != m.history || t.now.started > m.now.started)
  {
    if !Deaf(m.state) { HandleMoves(m.(queue := m.queue[1..]), scanning); }
  }

  lemma EndKeepsInv(m: Machine, ok: bool)
    requires Inv(m) && m.queue != [] && m.queue[0] == EndPeriod(ok)
    ensures var t := SoundDown(m.(queue := m.queue[1..]), ok);
      Inv(t) && Moves(m, t) && (m.state.SuStart? || m.state.MuStart? ==>
            t.history != m.history || t.now.started > m.now.started)
  {
    if m.state.SuStart? || m.state.MuStart? { SoundDownMoves(m.(queue := m.queue[1..]), ok); }
  }

  /** Every event keeps the invariant and moves an open period on or closes it; an effective run of the handler
      does not leave it where it was. */
  lemma StepKeepsInv(m: Machine, e: Event)
    requires Inv(m)
    ensures Inv(Step(m, e)) && Moves(m, Step(m, e))
    ensures Effective(m, e) ==> Step(m, e).history != m.history || Step(m, e).now.started > m.now.started
  {
    CountAppend(m.queue, StartPeriod);
    if e.ReportComes? { CountAppend(m.queue, EndPeriod(e.ok)); }
    if e.ThreadRuns? && m.queue != [] {
      if m.queue[0].StartPeriod? { StartKeepsInv(m, e.scanning); } else { EndKeepsInv(m, m.queue[0].ok); }
    }
  }

  /** In every run each finished period sounded its plan, each target once and in order, the group last, with one
      outcome each, in at most two more handler runs than its plan has single-user entries; and the period under
      way is on its way there. */
  lemma {:induction false} RunKeepsInv(m: Machine, events: seq<Event>)
    requires Inv(m)
    ensures Inv(RunFrom(m, events)) && m.history <= RunFrom(m, events).history
  {
    if events != [] {
      RunKeepsInv(m, events[..|events| - 1]);
      StepKeepsInv(RunFrom(m, events[..|events| - 1]), events[|events| - 1]);
    }
  }

  lemma EveryRun(es: seq<Entry>, events: seq<Event>)
    requires |es| == ENTRIES
    ensures Inv(RunFrom(Start(es), events))
  {
    RunKeepsInv(Start(es), events);
  }

  // How often the handler runs inside a period.
  function HandlerRuns(m: Machine, events: seq<Event>): nat {
    if events == [] then 0 else
      var front := events[..|events| - 1];
      HandlerRuns(m, front) + if Effective(RunFrom(m, front), events[|events| - 1]) then 1 else 0
  }

  /** As long as a period does not close, every run of the handler starts a further target of its plan. */
  lemma {:induction false} RunsAreStarts(m: Machine, events: seq<Event>)
    requires Inv(m) && Open(m.state)
    ensures var t := RunFrom(m, events);
      t.history == m.history ==>
        && Open(t.state) && t.now.plan == m.now.plan && m.now.outcomes <= t.now.outcomes
        && HandlerRuns(m, events) <= t.now.started - m.now.started
  {
    if events != [] {
      var front, last := events[..|events| - 1], events[|events| - 1];
      RunsAreStarts(m, front);
      RunKeepsInv(m, front);
      StepKeepsInv(RunFrom(m, front), last);
    }
  }

  /** A period closes, and the machine is back in its initial state, at the latest when the handler has run once
      more than the plan has targets left, whatever reports, timeouts and other events come in between and however
      each sounding ends. */
  lemma PeriodCloses(m: Machine, events: seq<Event>)
    requires Inv(m) && Open(m.state) && HandlerRuns(m, events) > |m.now.plan| - m.now.started
    ensures |RunFrom(m, events).history| > |m.history|
    ensures RunFrom(m, events).history[|m.history|].plan == m.now.plan
    ensures m.now.outcomes <= RunFrom(m, events).history[|m.history|].outcomes
  {
    RunsAreStarts(m, events);
    RunKeepsInv(m, events);
    FirstClosed(m, events);
  }

  lemma {:induction false} FirstClosed(m: Machine, events: seq<Event>)
    requires Inv(m) && Open(m.state) && RunFrom(m, events).history != m.history
    ensures var h := RunFrom(m, events).history;
      |h| > |m.history| && h[|m.history|].plan == m.now.plan && m.now.outcomes <= h[|m.history|].outcomes
  {
    if events != [] {
      var front, last := events[..|events| - 1], events[|events| - 1];
      RunKeepsInv(m, front);
      RunsAreStarts(m, front);
      StepKeepsInv(RunFrom(m, front), last);
      if RunFrom(m, front).history != m.history {
        FirstClosed(m, front);
      }
    }
  }
}
