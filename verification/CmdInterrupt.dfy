/**
 What an interrupted lock call does to the command thread's handshake (rtw_cmd.c).  sctx_mutex is taken with
 mutex_lock_interruptible, and nobody looks at the result: whoever gets -EINTR goes on without the mutex and
 unlocks it in the end, which takes it from its holder.  Every such interruption can be continued, without
 another one, to an access to a context whose caller has returned and to a write to a freed command.
 */
module CmdInterrupt {
  import opened Basics
  import opened CmdThread

  // ----- who holds a mutex is between lock and unlock, in every run

  predicate HolderOk(s: State, a: AdapterId, o: Owner) {
    match o
    case ByCaller(j) => j in s.calls && AtLock(s.calls[j].pc) && s.calls[j].req.adapter == a
    case ByThread =>
      s.thread.Busy? && InSection(s.thread.phase) && s.thread.k in s.calls && s.calls[s.thread.k].req.adapter == a
  }

  ghost predicate HoldersOk(s: State) {
    forall a :: a in s.locks ==> HolderOk(s, a, s.locks[a])
  }

  lemma SubmitHolders(s: State, step: Step)
    requires step.Begin? || step.Filter? || step.Enqueue? || step.Return?
    requires HoldersOk(s) && Enabled(s, step)
    ensures HoldersOk(Next(s, step))
  {
  }

  lemma WaitHolders(s: State, step: Step)
    requires step.Timeout? || step.Wake? || step.LockInterrupted?
    requires HoldersOk(s) && Enabled(s, step)
    ensures HoldersOk(Next(s, step))
  {
  }

  lemma CallerHolders(s: State, step: Step)
    requires step.CallerLock? || step.Check? || step.Detach? || step.CallerUnlock?
    requires HoldersOk(s) && Enabled(s, step)
    ensures HoldersOk(Next(s, step))
  {
  }

  lemma FetchHolders(s: State, step: Step)
    requires step.Awake? || step.Dequeue? || step.DrainNext? || step.StopRunning? || step.Restart?
    requires HoldersOk(s) && Enabled(s, step)
    ensures HoldersOk(Next(s, step))
  {
  }

  // The thread is outside the section before and after, and what concerns the mutexes is the same.
  ghost predicate OutsideStep(s: State, t: State) {
    && t.locks == s.locks && t.calls.Keys == s.calls.Keys
    && (s.thread.Busy? ==> !InSection(s.thread.phase))
    && forall k :: k in s.calls ==> t.calls[k].pc == s.calls[k].pc && t.calls[k].req == s.calls[k].req
  }

  lemma OutsideHolders(s: State, t: State)
    requires HoldersOk(s) && OutsideStep(s, t)
    ensures HoldersOk(t)
  {
    forall a | a in t.locks ensures HolderOk(t, a, t.locks[a]) {
      assert HolderOk(s, a, s.locks[a]);
      assert s.locks[a].ByCaller? ==> s.locks[a].k in t.calls.Keys;
    }
  }

  lemma DropOutside(s: State, hwInit: bool, aliveOk: bool)
    requires Enabled(s, Dispatch(hwInit, aliveOk))
    requires var r := s.calls[s.thread.k].req;
      s.thread.drain || r.code.Unhandled? || !FilterPasses(r, hwInit, s.running)
    ensures OutsideStep(s, DispatchNext(s, hwInit, aliveOk))
  {
  }

  lemma DispatchOutside(s: State, hwInit: bool, aliveOk: bool)
    requires Enabled(s, Dispatch(hwInit, aliveOk))
    ensures OutsideStep(s, DispatchNext(s, hwInit, aliveOk))
  {
    var r := s.calls[s.thread.k].req;
    if s.thread.drain || r.code.Unhandled? || !FilterPasses(r, hwInit, s.running) { DropOutside(s, hwInit, aliveOk); }
  }

  lemma DispatchHolders(s: State, hwInit: bool, aliveOk: bool)
    requires HoldersOk(s) && Enabled(s, Dispatch(hwInit, aliveOk))
    ensures HoldersOk(DispatchNext(s, hwInit, aliveOk))
  {
    DispatchOutside(s, hwInit, aliveOk);
    OutsideHolders(s, DispatchNext(s, hwInit, aliveOk));
  }

  lemma WorkHolders(s: State, step: Step)
    requires (step.Run? || step.Callback?) && HoldersOk(s) && Enabled(s, step)
    ensures HoldersOk(Next(s, step))
  {
  }

  lemma LockHolders(s: State, step: Step)
    requires (step.ThreadLock? || step.ThreadInterrupted?) && HoldersOk(s) && Enabled(s, step)
    ensures HoldersOk(Next(s, step))
  {
  }

  lemma FreeHolders(s: State)
    requires HoldersOk(s) && Enabled(s, Free)
    ensures HoldersOk(Next(s, Free))
  {
  }

  // What the actions inside the section leave alone.
  ghost predicate InsideStep(s: State, t: State) {
    && s.thread.Busy? && t.thread.Busy? && t.thread.k == s.thread.k && InSection(t.thread.phase)
    && t.locks == s.locks && t.queue == s.queue && s.thread.k in s.calls && s.thread.k in t.calls
    && t.calls == s.calls[s.thread.k := t.calls[s.thread.k]]
    && t.calls[s.thread.k].req == s.calls[s.thread.k].req && t.calls[s.thread.k].pc == s.calls[s.thread.k].pc
    && PhaseRank(t.thread.phase) < PhaseRank(s.thread.phase)
  }

  lemma TestFrame(s: State)
    requires Enabled(s, Advance) && (s.thread.phase.Testing? || s.thread.phase.Delivering? || s.thread.phase.Retesting?)
    ensures InsideStep(s, AdvanceNext(s))
  {
  }

  lemma MarkFrame(s: State)
    requires Enabled(s, Advance) && (s.thread.phase.Marking? || s.thread.phase.Completing?)
    ensures InsideStep(s, AdvanceNext(s))
  {
  }

  lemma ClearFrame(s: State)
    requires Enabled(s, Advance) && (s.thread.phase.Clearing? || s.thread.phase.Disposing?)
    ensures InsideStep(s, AdvanceNext(s))
  {
  }

  lemma AdvanceInside(s: State)
    requires Enabled(s, Advance) && !s.thread.phase.Unlocking?
    ensures InsideStep(s, Next(s, Advance))
  {
    var ph := s.thread.phase;
    if ph.Testing? || ph.Delivering? || ph.Retesting? { TestFrame(s); }
    else if ph.Marking? || ph.Completing? { MarkFrame(s); }
    else { ClearFrame(s); }
  }

  lemma SectionHolders(s: State, t: State)
    requires HoldersOk(s) && InsideStep(s, t)
    ensures HoldersOk(t)
  {
  }

  lemma UnlockHolders(s: State)
    requires HoldersOk(s) && Enabled(s, Advance) && s.thread.phase.Unlocking?
    ensures HoldersOk(Next(s, Advance))
  {
  }

  lemma StepKeepsHolders(s: State, step: Step)
    requires HoldersOk(s) && Enabled(s, step)
    ensures HoldersOk(Next(s, step))
  {
    if step.CallerLock? || step.Check? || step.Detach? || step.CallerUnlock? { CallerHolders(s, step); }
    else if step.Timeout? || step.Wake? || step.LockInterrupted? { WaitHolders(s, step); }
    else if IsCallerStep(step) || step.Begin? { SubmitHolders(s, step); }
    else if step.Dispatch? { DispatchHolders(s, step.hwInit, step.aliveOk); }
    else if step.Run? || step.Callback? { WorkHolders(s, step); }
    else if step.ThreadLock? || step.ThreadInterrupted? { LockHolders(s, step); }
    else if step.Free? { FreeHolders(s); }
    else if step.Advance? && s.thread.phase.Unlocking? { UnlockHolders(s); }
    else if step.Advance? { AdvanceInside(s); SectionHolders(s, Next(s, step)); }
    else { FetchHolders(s, step); }
  }

  lemma {:induction false} RunKeepsHolders(steps: seq<Step>)
    requires Exec(steps).Some?
    ensures HoldersOk(Exec(steps).value)
  {
    if steps != [] {
      var s, step := Exec(steps[..|steps| - 1]).value, steps[|steps| - 1];
      RunKeepsHolders(steps[..|steps| - 1]);
      StepKeepsHolders(s, step);
    }
  }

  // ----- a call that was robbed of the mutex

  // rtw_ips_ctrl_wk_cmd for IPS_CTRL_LEAVE_SET_MODE, which waits and makes no response; it passes the filter even
  // when the thread is not running.  The driver sends it on the primary adapter only; here any adapter may.
  function Probe(a: AdapterId): Request {
    Request(a, DrvExtra(true, true), false, true, false)
  }

  predicate Intact(c: Call, a: AdapterId, pc: CallerPc) {
    c.req == Probe(a) && c.pc == pc && c.cmd.sctx && !c.cmd.rspBuf
  }

  // The phases of the thread up to the first access to the context.
  predicate Approaching(ph: Phase) {
    BeforeAnswer(ph) || ph.Retesting? || ph.Marking? || ph.Completing?
  }

  // m has made the lock call, does not hold the mutex, and its command is the last in the queue or in hand.
  ghost predicate Robbed(s: State, m: CallId, pc: CallerPc) {
    && (forall i :: 0 <= i < |s.queue| ==> s.queue[i] in s.calls)
    && (s.thread.Busy? ==> s.thread.k in s.calls)
    && NotHolder(s, m)
    && m in s.calls && Intact(s.calls[m], s.calls[m].req.adapter, pc)
    && (if s.thread.Busy? && s.thread.k == m
        then Approaching(s.thread.phase) && (s.calls[m].ctx.status.Submitted? <==> !s.thread.phase.Completing?)
        else
          && s.queue != [] && s.queue[|s.queue| - 1] == m && s.calls[m].ctx.status.Submitted?
          && forall i :: 0 <= i < |s.queue| - 1 ==> s.queue[i] != m)
  }

  ghost predicate NotHolder(s: State, m: CallId) {
    forall a :: a in s.locks ==> s.locks[a] != ByCaller(m)
  }

  predicate Arrived(s: State, m: CallId) {
    s.thread.Busy? && s.thread.k == m && s.thread.phase.Completing?
  }

  // The next step on the way of the thread to m.
  function Pick(s: State): Step {
    match s.thread
    case Idle => Awake(true, false)
    case Fetching => Dequeue(false)
    case Stopping => StopRunning
    case Draining => DrainNext
    case Exited => Restart
    case Busy(k, ph, _) =>
      match ph
      case Fetched => Dispatch(true, true)
      case Running => Run(true)
      case Finishing => Callback(false)
      case WantLock =>
        if k in s.calls && s.calls[k].req.adapter in s.locks
        then Release(s, s.locks[s.calls[k].req.adapter]) else ThreadLock
      case Freeing => Free
      case _ => Advance
  }

  // The holder moves on towards its unlock.
  function Release(s: State, o: Owner): Step {
    match o
    case ByThread => Advance
    case ByCaller(j) =>
      if j !in s.calls || s.calls[j].pc.Leaving? then CallerUnlock(j)
      else if s.calls[j].pc.Checking? then Check(j) else Detach(j)
  }

  function HolderRank(s: State, o: Owner): (r: nat)
    ensures r <= 3
  {
    match o
    case ByThread => 0
    case ByCaller(j) =>
      if j !in s.calls || s.calls[j].pc.Leaving? then 1 else if s.calls[j].pc.Checking? then 3 else 2
  }

  function PhaseRank(ph: Phase): (r: nat)
    ensures 36 <= r <= 52
  {
    match ph
    case Freeing => 36
    case Unlocking => 37
    case Disposing => 38
    case Clearing => 38
    case Completing => 39
    case Marking => 40
    case Retesting => 41
    case Delivering => 42
    case Testing => 43
    case WantLock => 44
    case Finishing => 50
    case Running => 51
    case Fetched => 52
  }

  function ThreadRank(s: State): (r: nat)
    ensures r < 100
  {
    match s.thread
    case Fetching => 31
    case Idle => 32
    case Exited => 33
    case Draining => 34
    case Stopping => 35
    case Busy(k, ph, _) =>
      PhaseRank(ph) +
      if ph.WantLock? && k in s.calls && s.calls[k].req.adapter in s.locks
      then HolderRank(s, s.locks[s.calls[k].req.adapter]) else 0
  }

  function Rank(s: State): nat {
    100 * |s.queue| + ThreadRank(s)
  }

  lemma IdlePick(s: State, m: CallId, pc: CallerPc)
    requires Robbed(s, m, pc) && !s.thread.Busy?
    ensures Enabled(s, Pick(s)) && !IsInterruption(Pick(s))
    ensures Robbed(Next(s, Pick(s)), m, pc) && Rank(Next(s, Pick(s))) < Rank(s)
  {
  }

  // What dispatching leaves alone when the firmware is awake.
  ghost predicate DispatchStep(s: State, t: State) {
    && s.thread.Busy? && t.thread.Busy? && t.thread.k == s.thread.k && s.thread.k in s.calls && s.thread.k in t.calls
    && (t.thread.phase.WantLock? || t.thread.phase.Finishing? || t.thread.phase.Running?)
    && t.locks == s.locks && t.queue == s.queue
    && t.calls == s.calls[s.thread.k := t.calls[s.thread.k]]
    && t.calls[s.thread.k] == s.calls[s.thread.k].(cmd := s.calls[s.thread.k].cmd.(res := t.calls[s.thread.k].cmd.res))
  }

  lemma DispatchFrame(s: State)
    requires Enabled(s, Dispatch(true, true))
    ensures DispatchStep(s, DispatchNext(s, true, true))
  {
  }

  lemma DispatchPick(s: State, m: CallId, pc: CallerPc, t: State)
    requires Robbed(s, m, pc) && s.thread.Busy? && s.thread.phase.Fetched? && DispatchStep(s, t)
    ensures Robbed(t, m, pc) && Rank(t) < Rank(s)
  {
  }

  lemma WorkPick(s: State, m: CallId, pc: CallerPc)
    requires Robbed(s, m, pc) && s.thread.Busy?
    requires s.thread.phase.Running? || s.thread.phase.Finishing? || s.thread.phase.Freeing?
    ensures Enabled(s, Pick(s)) && !IsInterruption(Pick(s))
    ensures Robbed(Next(s, Pick(s)), m, pc) && Rank(Next(s, Pick(s))) < Rank(s)
  {
  }

  lemma LockPick(s: State, m: CallId, pc: CallerPc)
    requires Robbed(s, m, pc) && s.thread.Busy? && s.thread.phase.WantLock?
    requires s.calls[s.thread.k].req.adapter !in s.locks
    ensures Enabled(s, Pick(s)) && !IsInterruption(Pick(s))
    ensures Robbed(Next(s, Pick(s)), m, pc) && Rank(Next(s, Pick(s))) < Rank(s)
  {
  }

  lemma ReleasePick(s: State, m: CallId, pc: CallerPc, j: CallId)
    requires Robbed(s, m, pc) && s.thread.Busy? && s.thread.phase.WantLock?
    requires Holds(s, s.calls[s.thread.k].req.adapter, ByCaller(j))
    requires HolderOk(s, s.calls[s.thread.k].req.adapter, ByCaller(j))
    ensures Enabled(s, Pick(s)) && !IsInterruption(Pick(s))
    ensures Robbed(Next(s, Pick(s)), m, pc) && Rank(Next(s, Pick(s))) < Rank(s)
  {
  }

  lemma OwnPick(s: State, m: CallId, pc: CallerPc)
    requires Robbed(s, m, pc) && s.thread.Busy? && s.thread.k == m && InSection(s.thread.phase)
    requires !s.thread.phase.Completing?
    ensures Enabled(s, Pick(s)) && !IsInterruption(Pick(s))
    ensures Robbed(Next(s, Pick(s)), m, pc) && Rank(Next(s, Pick(s))) < Rank(s)
  {
  }

  lemma SectionPick(s: State, m: CallId, pc: CallerPc, t: State)
    requires Robbed(s, m, pc) && s.thread.Busy? && s.thread.k != m && InsideStep(s, t)
    ensures Robbed(t, m, pc) && Rank(t) < Rank(s)
  {
  }

  lemma UnlockPick(s: State, m: CallId, pc: CallerPc)
    requires Robbed(s, m, pc) && s.thread.Busy? && s.thread.k != m && s.thread.phase.Unlocking?
    ensures Enabled(s, Pick(s)) && !IsInterruption(Pick(s))
    ensures Robbed(Next(s, Pick(s)), m, pc) && Rank(Next(s, Pick(s))) < Rank(s)
  {
  }

  lemma PickLeads(s: State, m: CallId, pc: CallerPc)
    requires Robbed(s, m, pc) && HoldersOk(s) && !Arrived(s, m)
    ensures Enabled(s, Pick(s)) && !IsInterruption(Pick(s))
    ensures Robbed(Next(s, Pick(s)), m, pc) && HoldersOk(Next(s, Pick(s))) && Rank(Next(s, Pick(s))) < Rank(s)
  {
    if !s.thread.Busy? {
      IdlePick(s, m, pc);
    } else {
      var ph := s.thread.phase;
      if ph.Fetched? { DispatchFrame(s); DispatchPick(s, m, pc, Next(s, Pick(s))); }
      else if ph.WantLock? {
        var a := s.calls[s.thread.k].req.adapter;
        if a in s.locks { ReleasePick(s, m, pc, s.locks[a].k); } else { LockPick(s, m, pc); }
      }
      else if ph.Running? || ph.Finishing? || ph.Freeing? { WorkPick(s, m, pc); }
      else if s.thread.k == m { OwnPick(s, m, pc); }
      else if ph.Unlocking? { UnlockPick(s, m, pc); }
      else { AdvanceInside(s); SectionPick(s, m, pc, Next(s, Pick(s))); }
    }
    StepKeepsHolders(s, Pick(s));
  }

  // ----- continuing a run

  // more continues the run, without an interruption, to the state t.
  ghost predicate Continues(steps: seq<Step>, more: seq<Step>, t: State) {
    Uninterrupted(more) && Exec(steps + more) == Some(t)
  }

  lemma Stay(steps: seq<Step>, s: State)
    requires Exec(steps) == Some(s)
    ensures Continues(steps, [], s)
  {
    assert steps + [] == steps;
  }

  lemma Extend(steps: seq<Step>, more: seq<Step>, t: State, step: Step)
    requires Continues(steps, more, t) && Enabled(t, step) && !IsInterruption(step)
    ensures Continues(steps, more + [step], Next(t, step))
  {
    ExecAppend(steps + more, step, t);
    assert steps + (more + [step]) == (steps + more) + [step];
  }

  // The thread gets to the context of the robbed call.
  lemma {:induction false} Reach(steps: seq<Step>, before: seq<Step>, s: State, m: CallId, pc: CallerPc)
    returns (more: seq<Step>, t: State)
    requires Continues(steps, before, s) && Robbed(s, m, pc) && HoldersOk(s)
    ensures Continues(steps, more, t) && Robbed(t, m, pc) && Arrived(t, m)
    decreases Rank(s)
  {
    if Arrived(s, m) {
      more, t := before, s;
    } else {
      PickLeads(s, m, pc);
      Extend(steps, before, s, Pick(s));
      more, t := Reach(steps, before + [Pick(s)], Next(s, Pick(s)), m, pc);
    }
  }

  // ----- two parties inside

  // About to unlock.
  predicate Brink(s: State, a: AdapterId, p: Owner) {
    match p
    case ByCaller(j) => j in s.calls && s.calls[j].pc.Leaving? && s.calls[j].req.adapter == a
    case ByThread =>
      s.thread.Busy? && s.thread.phase.Unlocking? && s.thread.k in s.calls && s.calls[s.thread.k].req.adapter == a
  }

  function InsideRank(s: State, p: Owner): nat {
    match p
    case ByCaller(_) => HolderRank(s, p)
    case ByThread => if s.thread.Busy? then PhaseRank(s.thread.phase) else 0
  }

  lemma CallerOn(s: State, a: AdapterId, j: CallId, q: Owner)
    requires HolderOk(s, a, ByCaller(j)) && HolderOk(s, a, q) && q != ByCaller(j) && !Brink(s, a, ByCaller(j))
    ensures var step := Release(s, ByCaller(j));
      && Enabled(s, step) && !IsInterruption(step)
      && InsideRank(Next(s, step), ByCaller(j)) < InsideRank(s, ByCaller(j))
      && HolderOk(Next(s, step), a, ByCaller(j)) && HolderOk(Next(s, step), a, q)
      && (Brink(s, a, q) ==> Brink(Next(s, step), a, q))
  {
  }

  lemma ThreadOn(s: State, a: AdapterId, q: Owner)
    requires HolderOk(s, a, ByThread) && HolderOk(s, a, q) && q != ByThread && !Brink(s, a, ByThread)
    ensures Enabled(s, Advance) && InsideRank(Next(s, Advance), ByThread) < InsideRank(s, ByThread)
    ensures HolderOk(Next(s, Advance), a, ByThread) && HolderOk(Next(s, Advance), a, q)
    ensures Brink(s, a, q) ==> Brink(Next(s, Advance), a, q)
  {
    AdvanceInside(s);
  }

  lemma {:induction false} ToBrink(steps: seq<Step>, before: seq<Step>, s: State, a: AdapterId, p: Owner, q: Owner)
    returns (more: seq<Step>, t: State)
    requires Continues(steps, before, s) && HolderOk(s, a, p) && HolderOk(s, a, q) && p != q
    ensures Continues(steps, more, t) && Brink(t, a, p) && HolderOk(t, a, q) && (Brink(s, a, q) ==> Brink(t, a, q))
    decreases InsideRank(s, p)
  {
    if Brink(s, a, p) {
      more, t := before, s;
    } else {
      var step := Release(s, p);
      if p.ByThread? { ThreadOn(s, a, q); } else { CallerOn(s, a, p.k, q); }
      Extend(steps, before, s, step);
      more, t := ToBrink(steps, before + [step], Next(s, step), a, p, q);
    }
  }

  function Unlock(p: Owner): Step {
    if p.ByThread? then Advance else CallerUnlock(p.k)
  }

  // An unlock from the brink frees the mutex, whoever holds it.
  lemma UnlockFrees(s: State, a: AdapterId, p: Owner, q: Owner)
    requires Brink(s, a, p)
    ensures Enabled(s, Unlock(p)) && !IsInterruption(Unlock(p))
    ensures var t := Next(s, Unlock(p));
      && t.locks == s.locks - {a} && t.queue == s.queue && t.calls.Keys == s.calls.Keys
      && (s.thread.Busy? <==> t.thread.Busy?) && (s.thread.Busy? ==> t.thread.k == s.thread.k)
      && (p != q && Brink(s, a, q) ==> Brink(t, a, q))
      && (forall m :: m in s.calls && p != ByCaller(m) ==> t.calls[m] == s.calls[m])
  {
  }

  function ProbeCall(a: AdapterId, pc: CallerPc): Call {
    Call(Probe(a), pc, Cmd(true, NotRun, false), Ctx(Submitted, false, false), NotYet)
  }

  lemma ProbeSubmits(s: State, a: AdapterId, m: CallId)
    requires m !in s.calls
    ensures var t := Next(s, Begin(m, Probe(a)));
      t == s.(calls := s.calls[m := ProbeCall(a, Calling)]) && Enabled(t, Filter(m, true))
      && Next(t, Filter(m, true)) == s.(calls := s.calls[m := ProbeCall(a, Admitted)])
  {
  }

  lemma ProbeQueues(s: State, a: AdapterId, m: CallId)
    requires m in s.calls && s.calls[m] == ProbeCall(a, Admitted)
    ensures Next(s, Enqueue(m)) ==
      s.(calls := s.calls[m := ProbeCall(a, Waiting)], queue := s.queue + [m], accepted := s.accepted + [m])
  {
  }

  lemma ProbeLocks(s: State, a: AdapterId, m: CallId)
    requires m in s.calls && s.calls[m] == ProbeCall(a, Waiting) && a !in s.locks
    ensures var t := Next(s, Timeout(m));
      Enabled(t, CallerLock(m))
      && Next(t, CallerLock(m)) == s.(calls := s.calls[m := ProbeCall(a, Checking)], locks := s.locks[a := ByCaller(m)])
  {
    assert Next(s, Timeout(m)) == s.(calls := s.calls[m := ProbeCall(a, Locking)]);
  }

  lemma EnterFilter(steps: seq<Step>, before: seq<Step>, s: State, a: AdapterId, m: CallId)
    returns (more: seq<Step>, t: State)
    requires Continues(steps, before, s) && m !in s.calls
    ensures Continues(steps, more, t) && t == s.(calls := s.calls[m := ProbeCall(a, Admitted)])
  {
    ProbeSubmits(s, a, m);
    more, t := Then(steps, before, s, Begin(m, Probe(a)));
    more, t := Then(steps, more, t, Filter(m, true));
  }

  lemma EnterQueue(steps: seq<Step>, before: seq<Step>, s: State, a: AdapterId, m: CallId)
    returns (more: seq<Step>, t: State)
    requires Continues(steps, before, s) && m !in s.calls
    ensures Continues(steps, more, t)
    ensures t == s.(calls := s.calls[m := ProbeCall(a, Waiting)], queue := s.queue + [m], accepted := s.accepted + [m])
  {
    more, t := EnterFilter(steps, before, s, a, m);
    ProbeQueues(t, a, m);
    more, t := Then(steps, more, t, Enqueue(m));
    assert t.calls == s.calls[m := ProbeCall(a, Waiting)];
  }

  lemma EnterLock(steps: seq<Step>, before: seq<Step>, s: State, a: AdapterId, m: CallId)
    returns (more: seq<Step>, t: State)
    requires Continues(steps, before, s) && m in s.calls && s.calls[m] == ProbeCall(a, Waiting) && a !in s.locks
    ensures Continues(steps, more, t)
    ensures t == s.(calls := s.calls[m := ProbeCall(a, Checking)], locks := s.locks[a := ByCaller(m)])
  {
    ProbeLocks(s, a, m);
    more, t := Then(steps, before, s, Timeout(m));
    more, t := Then(steps, more, t, CallerLock(m));
  }

  // A new call gets into the queue and takes the free mutex.
  lemma Enter(steps: seq<Step>, before: seq<Step>, s: State, a: AdapterId, m: CallId)
    returns (more: seq<Step>, t: State)
    requires Continues(steps, before, s) && m !in s.calls && a !in s.locks
    ensures Continues(steps, more, t)
    ensures t == s.(calls := s.calls[m := ProbeCall(a, Checking)], queue := s.queue + [m], accepted := s.accepted + [m],
                    locks := s.locks[a := ByCaller(m)])
  {
    more, t := EnterQueue(steps, before, s, a, m);
    more, t := EnterLock(steps, more, t, a, m);
    assert t.calls == s.calls[m := ProbeCall(a, Checking)];
  }

  lemma Then(steps: seq<Step>, before: seq<Step>, s: State, step: Step) returns (more: seq<Step>, t: State)
    requires Continues(steps, before, s) && Enabled(s, step) && !IsInterruption(step)
    ensures t == Next(s, step) && Continues(steps, more, t)
  {
    Extend(steps, before, s, step);
    more, t := before + [step], Next(s, step);
  }

  // Queued commands and the one in hand are known.
  lemma QueueKnown(s: State)
    requires Base(s)
    ensures forall i :: 0 <= i < |s.queue| ==> s.queue[i] in s.calls
    ensures s.thread.Busy? ==> s.thread.k in s.calls
  {
    var l := LineOf(s);
    forall i | 0 <= i < |s.queue| ensures s.queue[i] in s.calls {
      assert s.accepted[|l.finished| + |l.held| + i] == s.queue[i];
    }
    if s.thread.Busy? { assert s.accepted[|l.finished|] == s.thread.k; }
  }

  lemma {:induction false} Bounded(ids: set<CallId>) returns (n: nat)
    ensures forall k :: k in ids ==> k < n
  {
    n := 0;
    if ids != {} {
      var k :| k in ids;
      var rest := ids - {k};
      n := Bounded(rest);
      assert forall j :: j in ids ==> j == k || j in rest;
      if n <= k { n := k + 1; }
    }
  }

  // With two parties at the brink a newcomer gets the mutex from the one and loses it to the other.
  lemma Rob(steps: seq<Step>, before: seq<Step>, s: State, a: AdapterId, p: Owner, q: Owner, m: CallId)
    returns (more: seq<Step>, t: State)
    requires Continues(steps, before, s) && Brink(s, a, p) && Brink(s, a, q) && p != q && m !in s.calls
    ensures Continues(steps, more, t) && Robbed(t, m, Checking) && t.calls[m].ctx.status.Submitted?
  {
    RunKeepsBase(steps + before);
    QueueKnown(s);
    RunKeepsHolders(steps + before);
    UnlockFrees(s, a, q, p);
    var u, v;
    more, u := Then(steps, before, s, Unlock(q));
    Newcomer(s, u, a, m);
    more, v := Enter(steps, more, u, a, m);
    BrinkStays(u, v, a, p, m);
    UnlockFrees(v, a, p, p);
    more, t := Then(steps, more, v, Unlock(p));
    NowRobbed(u, v, t, a, m, p);
  }

  // Nothing in the state refers to m yet.
  ghost predicate Unknown(s: State, m: CallId) {
    && (forall i :: 0 <= i < |s.queue| ==> s.queue[i] in s.calls) && (s.thread.Busy? ==> s.thread.k in s.calls)
    && m !in s.calls && NotHolder(s, m)
  }

  lemma Newcomer(s: State, u: State, a: AdapterId, m: CallId)
    requires HoldersOk(s) && m !in s.calls && (forall i :: 0 <= i < |s.queue| ==> s.queue[i] in s.calls)
    requires s.thread.Busy? ==> s.thread.k in s.calls
    requires u.locks == s.locks - {a} && u.queue == s.queue && u.calls.Keys == s.calls.Keys
    requires (s.thread.Busy? <==> u.thread.Busy?) && (s.thread.Busy? ==> u.thread.k == s.thread.k)
    ensures Unknown(u, m)
  {
    forall i | 0 <= i < |u.queue| ensures u.queue[i] in u.calls { assert s.queue[i] in s.calls.Keys; }
    assert m !in u.calls.Keys;
    if u.thread.Busy? { assert u.thread.k in u.calls.Keys; }
  }

  lemma BrinkStays(u: State, v: State, a: AdapterId, p: Owner, m: CallId)
    requires Brink(u, a, p) && m !in u.calls && m in v.calls && v.calls == u.calls[m := v.calls[m]]
    requires v.thread == u.thread
    ensures Brink(v, a, p) && p != ByCaller(m)
  {
  }

  lemma NowRobbed(u: State, v: State, t: State, a: AdapterId, m: CallId, p: Owner)
    requires Unknown(u, m) && v.calls == u.calls[m := ProbeCall(a, Checking)] && v.queue == u.queue + [m]
    requires v.thread == u.thread && v.locks == u.locks[a := ByCaller(m)]
    requires t.locks == v.locks - {a} && t.queue == v.queue && t.calls.Keys == v.calls.Keys && t.calls[m] == v.calls[m]
    requires (v.thread.Busy? <==> t.thread.Busy?) && (v.thread.Busy? ==> t.thread.k == v.thread.k)
    ensures Robbed(t, m, Checking) && t.calls[m].ctx.status.Submitted?
  {
    forall i | 0 <= i < |t.queue| ensures t.queue[i] in t.calls { assert v.queue[i] in v.calls.Keys; }
    if t.thread.Busy? { assert t.thread.k in v.calls.Keys; }
    assert m in v.calls.Keys;
  }

  // An interruption leaves two parties between lock and unlock.
  lemma TwoInside(s: State, step: Step) returns (a: AdapterId, p: Owner, q: Owner)
    requires HoldersOk(s) && Enabled(s, step) && IsInterruption(step)
    ensures p != q && HolderOk(Next(s, step), a, p) && HolderOk(Next(s, step), a, q)
  {
    var k := if step.LockInterrupted? then step.k else s.thread.k;
    a := s.calls[k].req.adapter;
    p, q := s.locks[a], if step.LockInterrupted? then ByCaller(k) else ByThread;
    assert HolderOk(s, a, p);
  }

  lemma Intrude(steps: seq<Step>, step: Step) returns (more: seq<Step>, t: State, m: CallId)
    requires Exec(steps).Some? && Enabled(Exec(steps).value, step) && IsInterruption(step)
    ensures Continues(steps + [step], more, t) && m !in Exec(steps).value.calls && Robbed(t, m, Checking)
    ensures HoldersOk(t)
    ensures t.calls[m].ctx.status.Submitted?
  {
    var s := Exec(steps).value;
    RunKeepsHolders(steps);
    var a, p, q := TwoInside(s, step);
    ExecAppend(steps, step, s);
    Stay(steps + [step], Next(s, step));
    more, t := ToBrink(steps + [step], [], Next(s, step), a, p, q);
    more, t := ToBrink(steps + [step], more, t, a, q, p);
    var n := Bounded(t.calls.Keys + s.calls.Keys);
    m := n;
    more, t := Rob(steps + [step], more, t, a, p, q, m);
    RunKeepsHolders(steps + [step] + more);
  }

  /** Every interruption of a lock call, in every run, can be continued without another one until the thread is
      about to complete the context of a caller that has returned; that caller's own lock call succeeded. */
  lemma InterruptionDangles(steps: seq<Step>, step: Step) returns (more: seq<Step>, m: CallId)
    requires Exec(steps).Some? && Enabled(Exec(steps).value, step) && IsInterruption(step)
    ensures Uninterrupted(more) && Exec(steps + [step] + more).Some?
    ensures var t := Exec(steps + [step] + more).value;
      && Enabled(t, Advance) && m in ContextsTouched(t, Advance) && m in t.calls && t.calls[m].pc.Returned?
      && m !in Exec(steps).value.calls
  {
    var t;
    more, t, m := Intrude(steps, step);
    more, t := Reach(steps + [step], more, t, m, Checking);
    more, t := Then(steps + [step], more, t, Check(m));
    more, t := Then(steps + [step], more, t, CallerUnlock(m));
    more, t := Then(steps + [step], more, t, Return(m));
  }

  /** It can also be continued until a caller is about to write to its command after the thread has freed it. */
  lemma InterruptionCorrupts(steps: seq<Step>, step: Step) returns (more: seq<Step>, m: CallId)
    requires Exec(steps).Some? && Enabled(Exec(steps).value, step) && IsInterruption(step)
    ensures Uninterrupted(more) && Exec(steps + [step] + more).Some?
    ensures var t := Exec(steps + [step] + more).value;
      Enabled(t, Detach(m)) && m in CommandsTouched(t, Detach(m)) && t.freed[CmdObj(m)] > 0
  {
    var t;
    more, t, m := Intrude(steps, step);
    CheckRobbed(t, m);
    more, t := Then(steps + [step], more, t, Check(m));
    RunKeepsHolders(steps + [step] + more);
    more, t := Reach(steps + [step], more, t, m, Detaching);
    more, t := FreeUnder(steps + [step], more, t, m);
  }

  lemma CheckRobbed(s: State, m: CallId)
    requires Robbed(s, m, Checking) && s.calls[m].ctx.status.Submitted?
    ensures Enabled(s, Check(m)) && Robbed(Next(s, Check(m)), m, Detaching)
  {
  }

  // The thread is at the phase with m, whose caller is about to write to the command.
  ghost predicate At(s: State, m: CallId, ph: Phase) {
    s.thread.Busy? && s.thread.k == m && s.thread.phase == ph && m in s.calls && s.calls[m].pc.Detaching?
  }

  lemma AdvanceAt(s: State, m: CallId, ph: Phase)
    requires At(s, m, ph) && (ph.Completing? || ph.Clearing? || ph.Unlocking?)
    ensures Enabled(s, Advance)
    ensures At(Next(s, Advance), m, if ph.Completing? then Clearing else if ph.Clearing? then Unlocking else Freeing)
  {
  }

  lemma FreeAt(s: State, m: CallId)
    requires At(s, m, Freeing)
    ensures Enabled(s, Free) && m in Next(s, Free).calls && Next(s, Free).calls[m].pc.Detaching?
    ensures Next(s, Free).freed[CmdObj(m)] > 0
  {
  }

  lemma FreeUnder(steps: seq<Step>, before: seq<Step>, s: State, m: CallId) returns (more: seq<Step>, t: State)
    requires Continues(steps, before, s) && At(s, m, Completing)
    ensures Continues(steps, more, t) && Enabled(t, Detach(m)) && t.freed[CmdObj(m)] > 0
  {
    AdvanceAt(s, m, Completing);
    more, t := Then(steps, before, s, Advance);
    AdvanceAt(t, m, Clearing);
    more, t := Then(steps, more, t, Advance);
    AdvanceAt(t, m, Unlocking);
    more, t := Then(steps, more, t, Advance);
    FreeAt(t, m);
    more, t := Then(steps, more, t, Free);
  }

  // Some continuation without an interruption dangles.
  ghost predicate CanDangle(steps: seq<Step>) {
    exists more: seq<Step>, last: Step ::
      && Uninterrupted(more) && Exec(steps + more).Some? && Enabled(Exec(steps + more).value, last)
      && Dangles(Exec(steps + more).value, last)
  }

  /** The exact condition: after a run without interruptions, a step opens the way to a dangling access (without
      further interruptions) if and only if it is an interrupted lock call. */
  lemma DanglesIffInterrupted(steps: seq<Step>, step: Step)
    requires Exec(steps).Some? && Uninterrupted(steps) && Enabled(Exec(steps).value, step)
    ensures CanDangle(steps + [step]) <==> IsInterruption(step)
  {
    if IsInterruption(step) { InterruptedCanDangle(steps, step); } else { UninterruptedCannot(steps + [step]); }
  }

  lemma InterruptedCanDangle(steps: seq<Step>, step: Step)
    requires Exec(steps).Some? && Enabled(Exec(steps).value, step) && IsInterruption(step)
    ensures CanDangle(steps + [step])
  {
    var more, m := InterruptionDangles(steps, step);
    assert Dangles(Exec(steps + [step] + more).value, Advance);
  }

  lemma UninterruptedCannot(steps: seq<Step>)
    requires Uninterrupted(steps)
    ensures !CanDangle(steps)
  {
    forall more: seq<Step>, last: Step |
      Uninterrupted(more) && Exec(steps + more).Some? && Enabled(Exec(steps + more).value, last)
      ensures !Dangles(Exec(steps + more).value, last)
    {
      NoDanglingAccess(steps + more, last);
    }
  }

  // ----- the plainest case: a caller interrupted while the thread works on its own context

  // The thread has not completed the context of k yet, whose caller is about to test the status.
  ghost predicate Exposed(s: State, k: CallId) {
    && s.thread.Busy? && s.thread.k == k && k in s.calls && s.calls[k].pc.Checking?
    && InSection(s.thread.phase) && !s.thread.phase.Clearing?
    && (UsesContext(s.thread.phase) || s.thread.phase.Testing?)
    && s.calls[k].cmd.sctx && (s.calls[k].ctx.status.Submitted? <==> !s.thread.phase.Completing?)
  }

  lemma ExposedOn(s: State, k: CallId)
    requires Exposed(s, k) && !s.thread.phase.Completing?
    ensures Enabled(s, Advance) && Exposed(Next(s, Advance), k)
  {
  }

  lemma {:induction false} ToCompleting(steps: seq<Step>, before: seq<Step>, s: State, k: CallId)
    returns (more: seq<Step>, t: State)
    requires Continues(steps, before, s) && Exposed(s, k)
    ensures Continues(steps, more, t) && Exposed(t, k) && t.thread.phase.Completing?
    decreases InsideRank(s, ByThread)
  {
    more, t := before, s;
    if !s.thread.phase.Completing? {
      ExposedOn(s, k);
      AdvanceInside(s);
      more, t := Then(steps, before, s, Advance);
      more, t := ToCompleting(steps, more, t, k);
    }
  }

  lemma ReturnExposed(steps: seq<Step>, before: seq<Step>, s: State, k: CallId) returns (more: seq<Step>, t: State)
    requires Continues(steps, before, s) && Exposed(s, k) && s.thread.phase.Completing?
    ensures Continues(steps, more, t) && k in t.calls && t.calls[k].pc.Returned?
    ensures Enabled(t, Advance) && k in ContextsTouched(t, Advance)
  {
    more, t := Then(steps, before, s, Check(k));
    more, t := Then(steps, more, t, CallerUnlock(k));
    more, t := Then(steps, more, t, Return(k));
  }

  lemma InterruptedIsExposed(s: State, k: CallId)
    requires Enabled(s, LockInterrupted(k)) && ViewOk(ViewOf(s, k)) && s.thread.Busy? && s.thread.k == k
    requires s.thread.phase.Testing? || (UsesContext(s.thread.phase) && !s.thread.phase.Clearing?)
    requires s.thread.phase.Completing? ==> s.calls[k].cmd.sctx
    ensures Exposed(Next(s, LockInterrupted(k)), k)
  {
  }

  /** A caller whose lock call is interrupted while the thread is between testing and completing that caller's
      own context can return before the thread completes it. */
  lemma OwnContextDangles(steps: seq<Step>, k: CallId) returns (more: seq<Step>)
    requires Exec(steps).Some? && Uninterrupted(steps) && Enabled(Exec(steps).value, LockInterrupted(k))
    requires var th := Exec(steps).value.thread;
      th.Busy? && th.k == k && (th.phase.Testing? || (UsesContext(th.phase) && !th.phase.Clearing?))
    ensures Uninterrupted(more) && Exec(steps + [LockInterrupted(k)] + more).Some?
    ensures var t := Exec(steps + [LockInterrupted(k)] + more).value;
      Enabled(t, Advance) && k in ContextsTouched(t, Advance) && k in t.calls && t.calls[k].pc.Returned?
  {
    var s, step := Exec(steps).value, LockInterrupted(k);
    RunKeepsBase(steps);
    RunKeepsSound(steps);
    assert ViewOk(ViewOf(s, k)) && SoundOk(ViewOf(s, k));
    InterruptedIsExposed(s, k);
    ExecAppend(steps, step, s);
    Stay(steps + [step], Next(s, step));
    var t;
    more, t := ToCompleting(steps + [step], [], Next(s, step), k);
    more, t := ReturnExposed(steps + [step], more, t, k);
  }

  // The thread works on the command of the one caller, who is about to make the lock call.
  ghost predicate Alone(s: State, ph: Phase) {
    && s.thread == Busy(7, ph, false) && s.locks == map[]
    && 7 in s.calls && s.calls[7].pc.Locking? && s.calls[7].req == Probe(0)
  }

  lemma AloneWorks(s: State)
    requires Alone(s, Fetched)
    ensures Enabled(s, Dispatch(true, true)) && Alone(Next(s, Dispatch(true, true)), Running)
  {
  }

  lemma AloneRuns(s: State, step: Step, ph: Phase)
    requires Alone(s, ph) && ((ph.Running? && step == Run(true)) || (ph.Finishing? && step == Callback(false)))
    ensures Enabled(s, step) && Alone(Next(s, step), if ph.Running? then Finishing else WantLock)
  {
  }

  lemma AloneFetched(s: State)
    requires s.thread.Idle? && s.queue == [7] && 7 in s.calls && s.calls[7] == ProbeCall(0, Waiting) && s.locks == map[]
    ensures var t := Next(s, Timeout(7)); var u := Next(t, Awake(true, false));
      Enabled(u, Dequeue(false)) && Alone(Next(u, Dequeue(false)), Fetched)
  {
  }

  // Such an interruption is possible: the wait times out just when the thread has entered the section.
  lemma InterruptionExample() returns (steps: seq<Step>)
    ensures Exec(steps).Some? && Uninterrupted(steps) && Enabled(Exec(steps).value, LockInterrupted(7))
    ensures var th := Exec(steps).value.thread; th.Busy? && th.k == 7 && th.phase.Testing?
  {
    var s: State;
    Stay([], Init);
    steps, s := EnterQueue([], [], Init, 0, 7);
    steps, s := ExampleFetched(steps, s);
    steps, s := ExampleRun(steps, s);
    steps, s := Then([], steps, s, ThreadLock);
    assert [] + steps == steps;
  }

  lemma ExampleRun(before: seq<Step>, s: State) returns (steps: seq<Step>, t: State)
    requires Continues([], before, s) && Alone(s, Fetched)
    ensures Continues([], steps, t) && Alone(t, WantLock)
  {
    AloneWorks(s);
    steps, t := Then([], before, s, Dispatch(true, true));
    AloneRuns(t, Run(true), Running);
    steps, t := Then([], steps, t, Run(true));
    AloneRuns(t, Callback(false), Finishing);
    steps, t := Then([], steps, t, Callback(false));
  }

  lemma ExampleFetched(before: seq<Step>, s: State) returns (steps: seq<Step>, t: State)
    requires Continues([], before, s)
    requires s.thread.Idle? && s.queue == [7] && 7 in s.calls && s.calls[7] == ProbeCall(0, Waiting) && s.locks == map[]
    ensures Continues([], steps, t) && Alone(t, Fetched)
  {
    AloneFetched(s);
    steps, t := Then([], before, s, Timeout(7));
    steps, t := Then([], steps, t, Awake(true, false));
    steps, t := Then([], steps, t, Dequeue(false));
  }
}
