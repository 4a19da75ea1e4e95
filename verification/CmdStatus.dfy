/**
 What the steps of a run say about the outcome of a call.

 CmdThread ties the fields of the state to each other.  Here they are tied to what happened: a status, a
 result and a response mean that certain steps were taken on the call, and a call that such steps were
 taken on ends with that status.  The steps are read off the run, with the conditions of the code written out.
 */
module CmdStatus {
  import opened Basics
  import opened CmdThread

  // Something that happens to a call in one step.
  datatype Deed =
    | Admit          // its command passes the filter on the way into the queue
    | Drain          // the drain loop takes it
    | Clear          // it passes the filter on the way out and the firmware is awake, or it needs no I/O
    | Bar            // the filter stops it on the way out
    | Runs(ok: bool) // its handler runs
    | Makes          // its callback leaves a response buffer
    | Woken          // its wait ends because the context was completed
    | Gives          // it detaches its context

  predicate InHand(s: State, k: CallId) {
    s.thread.Busy? && s.thread.k == k && k in s.calls
  }

  // rtw_cmd_filter, in its own words: leaving power save passes always; else the thread must run, and the hardware
  // must be up unless the command is for the channel plan or does no I/O.
  predicate LetThrough(s: State, k: CallId, hwInit: bool)
    requires k in s.calls
  {
    var r := s.calls[k].req;
    if r.code.DrvExtra? && r.code.ipsLeave then true
    else if !s.running then false
    else hwInit || r.code.SetChanPlan? || r.noIo
  }

  predicate IsDeed(s: State, step: Step, k: CallId, d: Deed) {
    match d
    case Admit => step.Filter? && step.k == k && k in s.calls && LetThrough(s, k, step.hwInit)
    case Drain => step.DrainNext? && s.queue != [] && s.queue[0] == k
    case Clear =>
      && step.Dispatch? && InHand(s, k) && !s.thread.drain && !s.calls[k].req.code.Unhandled?
      && LetThrough(s, k, step.hwInit) && (s.calls[k].req.noIo || step.aliveOk)
    case Bar =>
      && step.Dispatch? && InHand(s, k) && !s.thread.drain && !s.calls[k].req.code.Unhandled?
      && !LetThrough(s, k, step.hwInit)
    case Runs(ok) => step == Run(ok) && InHand(s, k)
    case Makes => step == Callback(true) && InHand(s, k)
    case Woken => step == Wake(k)
    case Gives => step == Detach(k)
  }

  // The deed was done on k at some point of the run.
  ghost predicate Did(steps: seq<Step>, k: CallId, d: Deed) {
    exists i :: 0 <= i < |steps| && DidAt(steps, i, k, d)
  }

  ghost predicate DidAt(steps: seq<Step>, i: nat, k: CallId, d: Deed)
    requires i < |steps|
  {
    Exec(steps[..i]).Some? && IsDeed(Exec(steps[..i]).value, steps[i], k, d)
  }

  lemma DidSame(steps: seq<Step>, prefix: seq<Step>, i: nat, k: CallId, d: Deed)
    requires prefix <= steps && i < |prefix|
    ensures DidAt(prefix, i, k, d) <==> DidAt(steps, i, k, d)
  {
    assert prefix[..i] == steps[..i];
  }

  // A deed of the longer run is one of the shorter run or of the last step.
  lemma DidMore(prefix: seq<Step>, step: Step, k: CallId, d: Deed)
    requires Exec(prefix).Some?
    ensures Did(prefix + [step], k, d) <==> Did(prefix, k, d) || IsDeed(Exec(prefix).value, step, k, d)
  {
    var steps, n := prefix + [step], |prefix|;
    forall i | 0 <= i < n ensures DidAt(prefix, i, k, d) <==> DidAt(steps, i, k, d) {
      DidSame(steps, prefix, i, k, d);
    }
    assert steps[..n] == prefix;
    assert DidAt(steps, n, k, d) <==> IsDeed(Exec(prefix).value, step, k, d);
  }

  // ----- all deeds on one call against its view

  datatype Tale = Tale(admitted: bool, drained: bool, cleared: bool, barred: bool, ranOk: bool, ranBad: bool,
                       made: bool, woken: bool, given: bool)

  ghost function TaleOf(steps: seq<Step>, k: CallId): Tale {
    Tale(Did(steps, k, Admit), Did(steps, k, Drain), Did(steps, k, Clear), Did(steps, k, Bar),
         Did(steps, k, Runs(true)), Did(steps, k, Runs(false)), Did(steps, k, Makes), Did(steps, k, Woken),
         Did(steps, k, Gives))
  }

  function Heard(t: Tale, s: State, step: Step, k: CallId): Tale {
    Tale(t.admitted || IsDeed(s, step, k, Admit), t.drained || IsDeed(s, step, k, Drain),
         t.cleared || IsDeed(s, step, k, Clear), t.barred || IsDeed(s, step, k, Bar),
         t.ranOk || IsDeed(s, step, k, Runs(true)), t.ranBad || IsDeed(s, step, k, Runs(false)),
         t.made || IsDeed(s, step, k, Makes), t.woken || IsDeed(s, step, k, Woken),
         t.given || IsDeed(s, step, k, Gives))
  }

  lemma TaleMore(prefix: seq<Step>, step: Step, k: CallId)
    requires Exec(prefix).Some?
    ensures TaleOf(prefix + [step], k) == Heard(TaleOf(prefix, k), Exec(prefix).value, step, k)
  {
    forall d ensures Did(prefix + [step], k, d) <==> Did(prefix, k, d) || IsDeed(Exec(prefix).value, step, k, d) {
      DidMore(prefix, step, k, d);
    }
  }

  const Untold := Tale(false, false, false, false, false, false, false, false, false)

  predicate Dispatched(v: View) {
    v.finished || (v.at.Some? && !v.at.value.Fetched?)
  }

  // What the thread did with the command.
  predicate WorkTold(v: View, t: Tale) {
    var c := v.c;
    && (t.drained ==> v.at.Some? || v.finished)
    && (v.at.Some? ==> (v.drain <==> t.drained))
    && (t.cleared || t.barred ==> Dispatched(v))
    && (Dispatched(v) ==> (t.cleared || t.barred <==> !t.drained && !c.req.code.Unhandled?))
    && !(t.cleared && t.barred)
    && !(t.ranOk && t.ranBad)
    && (t.ranOk || t.ranBad <==> t.cleared && v.at != Some(Running))
    && (v.at == Some(Running) ==> t.cleared)
    && (t.ranOk <==> c.cmd.res.Success?)
    && (t.ranBad <==> c.cmd.res.Failed?)
    && (t.made <==> c.cmd.rspBuf)
  }

  // What the context says.
  predicate StatusTold(v: View, t: Tale) {
    var c := v.c;
    && (c.ctx.status.DoneSuccess? ==> t.ranOk)
    && (c.ctx.status.DoneCmdDrop? ==> t.drained)
    && (c.ctx.status.DoneCmdError? ==> !t.ranOk && !t.drained)
    && (t.drained ==> !t.ranOk && !t.ranBad)
    && (c.ctx.done ==> !c.ctx.status.Submitted?)
  }

  // What the caller knows.
  predicate CallerTold(v: View, t: Tale) {
    var pc := v.c.pc;
    && (t.admitted <==> !pc.Calling? && !Rejected(v.c))
    && (t.woken ==> v.c.ctx.done && !pc.Calling? && !pc.Admitted? && !pc.Waiting?)
    && (pc.Returned? && (t.woken || !pc.status.Submitted?) ==> pc.status == v.c.ctx.status)
    && (pc.Returned? && !pc.accepted ==> pc.status.Submitted? && !pc.gotRsp)
  }

  predicate Told(v: View, t: Tale) {
    WorkTold(v, t) && StatusTold(v, t) && CallerTold(v, t)
  }

  // What is lost when a lock call is interrupted.
  predicate SoundTold(v: View, t: Tale) {
    var c := v.c;
    && (v.finished || v.at == Some(Disposing) || v.at == Some(Unlocking) || v.at == Some(Freeing) ==>
          (c.answered.FoundAttached? <==> !c.ctx.status.Submitted?))
    && (t.given ==> v.accepted && c.req.waits && Gone(c.pc) && !c.cmd.sctx && c.ctx.status.Submitted?
                    && !c.answered.FoundAttached?)
    && (c.req.waits && v.accepted && Gone(c.pc) ==> t.given || !c.ctx.status.Submitted?)
    && (c.req.waits && !c.cmd.sctx && c.ctx.status.Submitted? ==> t.given)
    && (c.cmd.sctx || c.answered.FoundAttached? ==> c.req.waits)
    && (c.pc.Returned? && v.accepted && c.req.waits ==> c.pc.status == c.ctx.status)
  }

  predicate Gone(pc: CallerPc) {
    pc.Leaving? || pc.Unlocked? || pc.Returned?
  }

  // ----- every step keeps both

  lemma SubmitTale(s: State, step: Step, k: CallId, t: Tale)
    requires step.Filter? || step.Enqueue?
    requires Enabled(s, step) && step.k == k && ViewOk(ViewOf(s, k)) && Told(ViewOf(s, k), t)
    ensures Told(ViewOf(CallerNext(s, step), k), Heard(t, s, step, k))
    ensures SoundOk(ViewOf(s, k)) && SoundTold(ViewOf(s, k), t) ==>
      SoundTold(ViewOf(CallerNext(s, step), k), Heard(t, s, step, k))
  {
  }

  lemma WakeTale(s: State, step: Step, k: CallId, t: Tale)
    requires step.Wake?
    requires Enabled(s, step) && step.k == k && ViewOk(ViewOf(s, k)) && Told(ViewOf(s, k), t)
    ensures Told(ViewOf(CallerNext(s, step), k), Heard(t, s, step, k))
    ensures SoundOk(ViewOf(s, k)) && SoundTold(ViewOf(s, k), t) ==>
      SoundTold(ViewOf(CallerNext(s, step), k), Heard(t, s, step, k))
  {
  }

  lemma DetachTale(s: State, step: Step, k: CallId, t: Tale)
    requires step.Detach?
    requires Enabled(s, step) && step.k == k && ViewOk(ViewOf(s, k)) && Told(ViewOf(s, k), t)
    ensures Told(ViewOf(CallerNext(s, step), k), Heard(t, s, step, k))
    ensures SoundOk(ViewOf(s, k)) && SoundTold(ViewOf(s, k), t) ==>
      SoundTold(ViewOf(CallerNext(s, step), k), Heard(t, s, step, k))
  {
  }

  lemma LockTale(s: State, step: Step, k: CallId, t: Tale)
    requires step.Timeout? || step.CallerLock? || step.LockInterrupted?
    requires Enabled(s, step) && step.k == k && ViewOk(ViewOf(s, k)) && Told(ViewOf(s, k), t)
    ensures Told(ViewOf(CallerNext(s, step), k), t)
    ensures SoundOk(ViewOf(s, k)) && SoundTold(ViewOf(s, k), t) ==>
      SoundTold(ViewOf(CallerNext(s, step), k), t)
  {
  }

  lemma ReturnTale(s: State, step: Step, k: CallId, t: Tale)
    requires step.Check? || step.CallerUnlock? || step.Return?
    requires Enabled(s, step) && step.k == k && ViewOk(ViewOf(s, k)) && Told(ViewOf(s, k), t)
    ensures Told(ViewOf(CallerNext(s, step), k), t)
    ensures SoundOk(ViewOf(s, k)) && SoundTold(ViewOf(s, k), t) ==>
      SoundTold(ViewOf(CallerNext(s, step), k), t)
  {
  }

  lemma TestTale(s: State, k: CallId, t: Tale)
    requires Enabled(s, Advance) && s.thread.k == k && ViewOk(ViewOf(s, k)) && Told(ViewOf(s, k), t)
    requires s.thread.phase.Testing? && s.calls[k].cmd.sctx
    ensures Told(ViewOf(AdvanceNext(s), k), t)
    ensures SoundOk(ViewOf(s, k)) && SoundTold(ViewOf(s, k), t) ==>
      SoundTold(ViewOf(AdvanceNext(s), k), t)
  {
  }

  lemma TestNullTale(s: State, k: CallId, t: Tale)
    requires Enabled(s, Advance) && s.thread.k == k && ViewOk(ViewOf(s, k)) && Told(ViewOf(s, k), t)
    requires s.thread.phase.Testing? && !s.calls[k].cmd.sctx
    ensures Told(ViewOf(AdvanceNext(s), k), t)
    ensures SoundOk(ViewOf(s, k)) && SoundTold(ViewOf(s, k), t) ==>
      SoundTold(ViewOf(AdvanceNext(s), k), t)
  {
  }

  lemma DeliverTale(s: State, k: CallId, t: Tale)
    requires Enabled(s, Advance) && s.thread.k == k && ViewOk(ViewOf(s, k)) && Told(ViewOf(s, k), t)
    requires s.thread.phase.Delivering? || s.thread.phase.Retesting?
    ensures Told(ViewOf(AdvanceNext(s), k), t)
    ensures SoundOk(ViewOf(s, k)) && SoundTold(ViewOf(s, k), t) ==>
      SoundTold(ViewOf(AdvanceNext(s), k), t)
  {
  }

  lemma MarkTale(s: State, k: CallId, t: Tale)
    requires Enabled(s, Advance) && s.thread.k == k && ViewOk(ViewOf(s, k)) && Told(ViewOf(s, k), t)
    requires s.thread.phase.Marking? || s.thread.phase.Completing?
    ensures Told(ViewOf(AdvanceNext(s), k), t)
    ensures SoundOk(ViewOf(s, k)) && SoundTold(ViewOf(s, k), t) ==>
      SoundTold(ViewOf(AdvanceNext(s), k), t)
  {
  }

  lemma ReleaseTale(s: State, k: CallId, t: Tale)
    requires Enabled(s, Advance) && s.thread.k == k && ViewOk(ViewOf(s, k)) && Told(ViewOf(s, k), t)
    requires s.thread.phase.Clearing? || s.thread.phase.Disposing? || s.thread.phase.Unlocking?
    ensures Told(ViewOf(AdvanceNext(s), k), t)
    ensures SoundOk(ViewOf(s, k)) && SoundTold(ViewOf(s, k), t) ==>
      SoundTold(ViewOf(AdvanceNext(s), k), t)
  {
  }

  lemma DrainTale(s: State, step: Step, k: CallId, t: Tale)
    requires step.Dispatch? && s.thread.Busy? && s.thread.drain
    requires Enabled(s, step) && s.thread.k == k && ViewOk(ViewOf(s, k)) && Told(ViewOf(s, k), t)
    ensures Told(ViewOf(DispatchNext(s, step.hwInit, step.aliveOk), k), Heard(t, s, step, k))
    ensures SoundTold(ViewOf(s, k), t) ==>
      SoundTold(ViewOf(DispatchNext(s, step.hwInit, step.aliveOk), k), Heard(t, s, step, k))
  {
  }

  lemma BarTale(s: State, step: Step, k: CallId, t: Tale)
    requires step.Dispatch? && s.thread.Busy? && !s.thread.drain
    requires Enabled(s, step) && s.thread.k == k && ViewOk(ViewOf(s, k)) && Told(ViewOf(s, k), t)
    requires s.calls[k].req.code.Unhandled? || !LetThrough(s, k, step.hwInit)
    ensures Told(ViewOf(DispatchNext(s, step.hwInit, step.aliveOk), k), Heard(t, s, step, k))
    ensures SoundTold(ViewOf(s, k), t) ==>
      SoundTold(ViewOf(DispatchNext(s, step.hwInit, step.aliveOk), k), Heard(t, s, step, k))
  {
  }

  lemma ClearTale(s: State, step: Step, k: CallId, t: Tale)
    requires step.Dispatch? && s.thread.Busy? && !s.thread.drain
    requires Enabled(s, step) && s.thread.k == k && ViewOk(ViewOf(s, k)) && Told(ViewOf(s, k), t)
    requires !s.calls[k].req.code.Unhandled? && LetThrough(s, k, step.hwInit)
    ensures Told(ViewOf(DispatchNext(s, step.hwInit, step.aliveOk), k), Heard(t, s, step, k))
    ensures SoundTold(ViewOf(s, k), t) ==>
      SoundTold(ViewOf(DispatchNext(s, step.hwInit, step.aliveOk), k), Heard(t, s, step, k))
  {
  }

  lemma RunTale(s: State, step: Step, k: CallId, t: Tale)
    requires step.Run?
    requires Enabled(s, step) && s.thread.k == k && ViewOk(ViewOf(s, k)) && Told(ViewOf(s, k), t)
    ensures Told(ViewOf(Next(s, step), k), Heard(t, s, step, k))
    ensures SoundTold(ViewOf(s, k), t) ==>
      SoundTold(ViewOf(Next(s, step), k), Heard(t, s, step, k))
  {
  }

  lemma CallbackTale(s: State, step: Step, k: CallId, t: Tale)
    requires step.Callback?
    requires Enabled(s, step) && s.thread.k == k && ViewOk(ViewOf(s, k)) && Told(ViewOf(s, k), t)
    ensures Told(ViewOf(Next(s, step), k), Heard(t, s, step, k))
    ensures SoundTold(ViewOf(s, k), t) ==>
      SoundTold(ViewOf(Next(s, step), k), Heard(t, s, step, k))
  {
  }

  lemma SectionTale(s: State, step: Step, k: CallId, t: Tale)
    requires step.ThreadLock? || step.ThreadInterrupted? || step.Free?
    requires Enabled(s, step) && s.thread.k == k && ViewOk(ViewOf(s, k)) && Told(ViewOf(s, k), t)
    ensures Told(ViewOf(Next(s, step), k), t)
    ensures SoundTold(ViewOf(s, k), t) ==>
      SoundTold(ViewOf(Next(s, step), k), t)
  {
  }

  lemma FetchTale(s: State, step: Step, k: CallId, t: Tale)
    requires step.Dequeue? || step.DrainNext?
    requires Enabled(s, step) && Actor(s, step) == Some(k) && k in s.calls && ViewOk(ViewOf(s, k))
    requires k in s.accepted && k !in s.finished && Told(ViewOf(s, k), t)
    ensures Told(ViewOf(Next(s, step), k), Heard(t, s, step, k))
    ensures SoundTold(ViewOf(s, k), t) ==>
      SoundTold(ViewOf(Next(s, step), k), Heard(t, s, step, k))
  {
  }

  // Other steps are no deeds, and deeds are done on the call that the step is about.
  lemma NoDeed(s: State, step: Step, k: CallId, t: Tale)
    requires !step.Filter? && !step.Wake? && !step.Detach? && !step.DrainNext? && !step.Dispatch? && !step.Run?
      && !step.Callback?
    ensures Heard(t, s, step, k) == t
  {
  }

  lemma DeedOfActor(s: State, step: Step, k: CallId, d: Deed)
    requires Enabled(s, step) && IsDeed(s, step, k, d)
    ensures Actor(s, step) == Some(k)
  {
  }

  lemma NoDeedOfOthers(s: State, step: Step, k: CallId, t: Tale)
    requires Enabled(s, step) && Actor(s, step) != Some(k)
    ensures Heard(t, s, step, k) == t
  {
    forall d ensures !IsDeed(s, step, k, d) {
      if IsDeed(s, step, k, d) { DeedOfActor(s, step, k, d); }
    }
  }

  // No step of another call changes what is told: only the mutexes of the view can change.
  lemma LocksUntold(v: View, w: View, t: Tale)
    requires SameButLocks(w, v)
    ensures Told(v, t) ==> Told(w, t)
    ensures SoundTold(v, t) ==> SoundTold(w, t)
  {
  }

  lemma CallerTale(s: State, step: Step, k: CallId, t: Tale)
    requires IsCallerStep(step) && Enabled(s, step) && step.k == k && ViewOk(ViewOf(s, k)) && Told(ViewOf(s, k), t)
    ensures Told(ViewOf(CallerNext(s, step), k), Heard(t, s, step, k))
    ensures SoundOk(ViewOf(s, k)) && SoundTold(ViewOf(s, k), t) ==>
      SoundTold(ViewOf(CallerNext(s, step), k), Heard(t, s, step, k))
  {
    if step.Filter? || step.Enqueue? { SubmitTale(s, step, k, t); }
    else if step.Wake? { WakeTale(s, step, k, t); }
    else if step.Detach? { DetachTale(s, step, k, t); }
    else {
      NoDeed(s, step, k, t);
      if step.Timeout? || step.CallerLock? || step.LockInterrupted? { LockTale(s, step, k, t); }
      else { ReturnTale(s, step, k, t); }
    }
  }

  lemma AdvanceTale(s: State, k: CallId, t: Tale)
    requires Enabled(s, Advance) && s.thread.k == k && ViewOk(ViewOf(s, k)) && Told(ViewOf(s, k), t)
    ensures Told(ViewOf(AdvanceNext(s), k), t)
    ensures SoundOk(ViewOf(s, k)) && SoundTold(ViewOf(s, k), t) ==> SoundTold(ViewOf(AdvanceNext(s), k), t)
  {
    var ph := s.thread.phase;
    if ph.Testing? { if s.calls[k].cmd.sctx { TestTale(s, k, t); } else { TestNullTale(s, k, t); } }
    else if ph.Delivering? || ph.Retesting? { DeliverTale(s, k, t); }
    else if ph.Marking? || ph.Completing? { MarkTale(s, k, t); }
    else { ReleaseTale(s, k, t); }
  }

  lemma DispatchTale(s: State, step: Step, k: CallId, t: Tale)
    requires step.Dispatch? && Enabled(s, step) && s.thread.k == k && ViewOk(ViewOf(s, k)) && Told(ViewOf(s, k), t)
    ensures Told(ViewOf(DispatchNext(s, step.hwInit, step.aliveOk), k), Heard(t, s, step, k))
    ensures SoundTold(ViewOf(s, k), t) ==>
      SoundTold(ViewOf(DispatchNext(s, step.hwInit, step.aliveOk), k), Heard(t, s, step, k))
  {
    if s.thread.drain { DrainTale(s, step, k, t); }
    else if s.calls[k].req.code.Unhandled? || !LetThrough(s, k, step.hwInit) { BarTale(s, step, k, t); }
    else { ClearTale(s, step, k, t); }
  }

  lemma WorkTale(s: State, step: Step, k: CallId, t: Tale)
    requires step.Run? || step.Callback? || step.ThreadLock? || step.ThreadInterrupted? || step.Free?
    requires Enabled(s, step) && s.thread.k == k && ViewOk(ViewOf(s, k)) && Told(ViewOf(s, k), t)
    ensures Told(ViewOf(Next(s, step), k), Heard(t, s, step, k))
    ensures SoundTold(ViewOf(s, k), t) ==> SoundTold(ViewOf(Next(s, step), k), Heard(t, s, step, k))
  {
    if step.Run? { RunTale(s, step, k, t); }
    else if step.Callback? { CallbackTale(s, step, k, t); }
    else { NoDeed(s, step, k, t); SectionTale(s, step, k, t); }
  }

  lemma OwnTale(s: State, step: Step, k: CallId, t: Tale)
    requires Enabled(s, step) && Actor(s, step) == Some(k) && !step.Begin?
    requires k in s.calls && ViewOk(ViewOf(s, k)) && Told(ViewOf(s, k), t)
    requires step.Dequeue? || step.DrainNext? ==> k in s.accepted && k !in s.finished
    requires k in Next(s, step).calls
    ensures Told(ViewOf(Next(s, step), k), Heard(t, s, step, k))
    ensures SoundOk(ViewOf(s, k)) && SoundTold(ViewOf(s, k), t) ==>
      SoundTold(ViewOf(Next(s, step), k), Heard(t, s, step, k))
  {
    if IsCallerStep(step) { CallerTale(s, step, k, t); }
    else if step.Advance? { NoDeed(s, step, k, t); AdvanceTale(s, k, t); }
    else if step.Dispatch? { DispatchTale(s, step, k, t); }
    else if step.Dequeue? || step.DrainNext? { FetchTale(s, step, k, t); }
    else { WorkTale(s, step, k, t); }
  }

  lemma BeginTale(s: State, req: Request, k: CallId)
    requires k !in s.calls && LineOk(LineOf(s)) && Known(s) && Untouched(s, k)
    ensures var u := Next(s, Begin(k, req)); Told(ViewOf(u, k), Untold) && SoundTold(ViewOf(u, k), Untold)
  {
  }

  lemma BeginOther(s: State, step: Step, k: CallId)
    requires step.Begin? && Enabled(s, step) && k in s.calls
    ensures ViewOf(Next(s, step), k) == ViewOf(s, k)
  {
  }

  // A call that has not begun has no tale.
  lemma FreshTale(s: State, step: Step, k: CallId)
    requires Enabled(s, step) && k !in s.calls && Known(s) && LineOk(LineOf(s))
    ensures Heard(Untold, s, step, k) == Untold
  {
    if step.Begin? {
      NoDeed(s, step, k, Untold);
    } else {
      ActorKnown(s, step);
      NoDeedOfOthers(s, step, k, Untold);
    }
  }

  lemma OtherTale(s: State, step: Step, k: CallId, t: Tale)
    requires Enabled(s, step) && !step.Begin? && k in s.calls && Actor(s, step) != Some(k)
    requires Actor(s, step).Some? ==> Actor(s, step).value in s.calls
    requires Told(ViewOf(s, k), t) && k in Next(s, step).calls
    ensures Told(ViewOf(Next(s, step), k), Heard(t, s, step, k))
    ensures SoundTold(ViewOf(s, k), t) ==> SoundTold(ViewOf(Next(s, step), k), Heard(t, s, step, k))
  {
    NoDeedOfOthers(s, step, k, t);
    OtherKept(s, step, k);
    LocksUntold(ViewOf(s, k), ViewOf(Next(s, step), k), t);
  }

  lemma StepTale(s: State, step: Step, k: CallId, t: Tale)
    requires Base(s) && Enabled(s, step) && k in s.calls && k in Next(s, step).calls && Told(ViewOf(s, k), t)
    ensures Told(ViewOf(Next(s, step), k), Heard(t, s, step, k))
    ensures Sound(s) && SoundTold(ViewOf(s, k), t) ==> SoundTold(ViewOf(Next(s, step), k), Heard(t, s, step, k))
  {
    if step.Begin? {
      BeginOther(s, step, k);
      NoDeed(s, step, k, t);
    } else {
      ActorKnown(s, step);
      if Actor(s, step) == Some(k) { OwnTale(s, step, k, t); } else { OtherTale(s, step, k, t); }
    }
  }

  lemma {:induction false} RunTold(steps: seq<Step>, k: CallId)
    requires Exec(steps).Some?
    ensures if k in Exec(steps).value.calls then Told(ViewOf(Exec(steps).value, k), TaleOf(steps, k))
            else TaleOf(steps, k) == Untold
    ensures k in Exec(steps).value.calls && Uninterrupted(steps) ==>
      SoundTold(ViewOf(Exec(steps).value, k), TaleOf(steps, k))
  {
    if steps != [] {
      var prefix, step := steps[..|steps| - 1], steps[|steps| - 1];
      var s := Exec(prefix).value;
      assert prefix + [step] == steps;
      RunTold(prefix, k);
      RunKeepsBase(prefix);
      if Uninterrupted(steps) { RunKeepsSound(prefix); }
      TaleMore(prefix, step, k);
      CallsGrow(s, step);
      if k in s.calls {
        StepTale(s, step, k, TaleOf(prefix, k));
      } else {
        FreshTale(s, step, k);
        if step.Begin? && step.k == k { BeginTale(s, step.req, k); }
      }
    }
  }

  // ----- the main results

  lemma FinishedIsKnown(steps: seq<Step>, k: CallId)
    requires Exec(steps).Some? && k in Exec(steps).value.finished
    ensures k in Exec(steps).value.calls && ViewOk(ViewOf(Exec(steps).value, k))
  {
    RunKeepsBase(steps);
    var s := Exec(steps).value;
    assert s.accepted[..|s.finished|] == s.finished;
    assert k in s.accepted;
  }

  /** In every run, interrupted or not, a completed context says what happened to the command: success exactly
      if its handler ran and succeeded, dropped exactly if the drain loop took it, and an error otherwise. */
  lemma StatusTells(steps: seq<Step>, k: CallId)
    requires Exec(steps).Some? && k in Exec(steps).value.calls
    ensures var status := Exec(steps).value.calls[k].ctx.status;
      !status.Submitted? ==>
        && (status.DoneSuccess? <==> Did(steps, k, Runs(true)))
        && (status.DoneCmdDrop? <==> Did(steps, k, Drain))
        && (status.DoneCmdError? <==> !Did(steps, k, Runs(true)) && !Did(steps, k, Drain))
  {
    RunTold(steps, k);
  }

  /** In every run without an interrupted lock call, the contexts completed by the time their command is freed
      are those of the waiting calls that did not detach. */
  lemma CompletedIff(steps: seq<Step>, k: CallId)
    requires Exec(steps).Some? && k in Exec(steps).value.finished && Uninterrupted(steps)
    ensures k in Exec(steps).value.calls
    ensures var c := Exec(steps).value.calls[k];
      && (c.answered.FoundAttached? <==> !c.ctx.status.Submitted?)
      && (c.answered.FoundAttached? <==> c.req.waits && !Did(steps, k, Gives))
  {
    FinishedIsKnown(steps, k);
    RunTold(steps, k);
    RunKeepsSound(steps);
  }

  /** A call whose wait ended because the context was completed returns with the final status, in every run.  As
      long as no lock call is interrupted, a waiting call returns with the status of its context, and with
      SUBMITTED exactly if it detached. */
  lemma ReturnTells(steps: seq<Step>, k: CallId)
    requires Exec(steps).Some? && k in Exec(steps).value.calls && Exec(steps).value.calls[k].pc.Returned?
    ensures var c := Exec(steps).value.calls[k];
      && (Did(steps, k, Woken) ==> !c.pc.status.Submitted?)
      && (!c.pc.status.Submitted? ==>
            && (c.pc.status.DoneSuccess? <==> Did(steps, k, Runs(true)))
            && (c.pc.status.DoneCmdDrop? <==> Did(steps, k, Drain)))
      && (Uninterrupted(steps) && c.pc.accepted && c.req.waits ==>
            (c.pc.status.Submitted? <==> Did(steps, k, Gives)))
  {
    RunKeepsBase(steps);
    RunTold(steps, k);
    assert ViewOk(ViewOf(Exec(steps).value, k));
  }

  /** A call is accepted only if its command passed the filter on the way in, and rejected only if it did not.
      Once finished, it was drained, or it had no handler, or it was cleared or barred on the way out; its
      handler ran, once and with one result, exactly if it was cleared. */
  lemma HandledIff(steps: seq<Step>, k: CallId)
    requires Exec(steps).Some? && k in Exec(steps).value.calls
    ensures var c := Exec(steps).value.calls[k];
      && (c.pc.Returned? && !c.pc.accepted ==> !Did(steps, k, Admit))
      && (k in Exec(steps).value.accepted ==> Did(steps, k, Admit))
      && (k in Exec(steps).value.finished ==>
            && (Did(steps, k, Drain) || c.req.code.Unhandled? <==> !Did(steps, k, Clear) && !Did(steps, k, Bar))
            && !(Did(steps, k, Clear) && Did(steps, k, Bar))
            && (Did(steps, k, Clear) <==> Did(steps, k, Runs(true)) || Did(steps, k, Runs(false)))
            && !(Did(steps, k, Runs(true)) && Did(steps, k, Runs(false))))
  {
    RunKeepsBase(steps);
    RunTold(steps, k);
    assert ViewOk(ViewOf(Exec(steps).value, k));
  }

  /** A response buffer is handed to the context exactly if the callback made it, the handler succeeded and the
      context was found attached; it goes to the free hook exactly if the callback made it, the context was
      found detached and there is a hook. */
  lemma ResponseTells(steps: seq<Step>, k: CallId)
    requires Exec(steps).Some? && k in Exec(steps).value.finished
    ensures k in Exec(steps).value.calls
    ensures var s := Exec(steps).value;
      var c := s.calls[k];
      && s.delivered[k] ==
           (if Did(steps, k, Makes) && Did(steps, k, Runs(true)) && c.answered.FoundAttached? then 1 else 0)
      && s.freed[Rsp(k)] ==
           (if Did(steps, k, Makes) && c.answered.FoundDetached? && c.req.hasRspFree then 1 else 0)
  {
    FinishedIsKnown(steps, k);
    RunTold(steps, k);
  }

  // ----- when the thread stops

  // A step at which the thread leaves its loop: the semaphore failed, or the driver was stopped.
  predicate Ends(step: Step) {
    (step.Awake? && (!step.semaOk || step.cannotRun)) || step == Dequeue(true)
  }

  predicate Ended(steps: seq<Step>) {
    if steps == [] then false
    else
      var step := steps[|steps| - 1];
      Ends(step) || (!step.Restart? && Ended(steps[..|steps| - 1]))
  }

  predicate Halted(s: State) {
    s.thread.Stopping? || s.thread.Draining? || s.thread.Exited? || (s.thread.Busy? && s.thread.drain)
  }

  predicate HaltOk(s: State) {
    s.running <==> !Halted(s) || s.thread.Stopping?
  }

  lemma CallerHalts(s: State, step: Step)
    requires IsCallerStep(step) && Enabled(s, step)
    ensures CallerNext(s, step).thread == s.thread && CallerNext(s, step).running == s.running
  {
  }

  lemma AdvanceHalts(s: State)
    requires Enabled(s, Advance)
    ensures var t := AdvanceNext(s); t.thread.Busy? && t.thread.drain == s.thread.drain && t.running == s.running
  {
  }

  lemma StepHalts(s: State, step: Step)
    requires Enabled(s, step) && HaltOk(s)
    ensures HaltOk(Next(s, step))
    ensures Halted(Next(s, step)) <==> Ends(step) || (!step.Restart? && Halted(s))
  {
    if IsCallerStep(step) { CallerHalts(s, step); }
    else if step.Advance? { AdvanceHalts(s); }
  }

  /** The thread is on its way out, or gone, exactly if since the last start the semaphore failed or the driver
      was stopped while the thread was looking; commands are admitted until it clears cmdthd_running. */
  lemma {:induction false} StopsIffTold(steps: seq<Step>)
    requires Exec(steps).Some?
    ensures HaltOk(Exec(steps).value) && (Halted(Exec(steps).value) <==> Ended(steps))
  {
    if steps != [] {
      var prefix := steps[..|steps| - 1];
      StopsIffTold(prefix);
      StepHalts(Exec(prefix).value, steps[|steps| - 1]);
    }
  }
}
