/**
 The command queue and the submit-context handshake of rtw_cmd.c.

 Callers allocate a command, may attach a context that lives on their own stack, enqueue the
 command and wait.  One thread dequeues, runs, completes and frees commands; a caller whose wait
 times out detaches its context under the adapter's sctx_mutex.  The system is a step relation over
 a shared state: every step is one action that the C code performs without an intermediate point at
 which another thread could observe it, so every interleaving of callers and thread is a sequence of
 steps.  The pointer in a command refers to the context of the call that created it, or is NULL;
 `sctx` says which.

 The mutex is taken with an interruptible lock call whose result nobody looks at.  A call that returns
 -EINTR is a step of its own; what then becomes of the handshake is in CmdInterrupt.
 */
module CmdThread {
  import opened Basics

  type CallId = nat
  type AdapterId = nat

  // ----- what a caller submits

  datatype Code =
    | DrvExtra(ownsBuf: bool, ipsLeave: bool) // CMD_SET_DRV_EXTRA; ownsBuf: pbuf != NULL && size > 0
    | SetChanPlan                             // always admitted while the thread runs
    | Unhandled                               // outside the dispatch table, or without a handler
    | Plain

  datatype Request =
    Request(adapter: AdapterId, code: Code, noIo: bool, waits: bool, hasRspFree: bool)

  predicate OwnsExtra(r: Request) {
    r.code.DrvExtra? && r.code.ownsBuf
  }

  // rtw_cmd_filter
  predicate FilterPasses(r: Request, hwInit: bool, running: bool) {
    || (r.code.DrvExtra? && r.code.ipsLeave)
    || ((hwInit || r.code.SetChanPlan? || r.noIo) && running)
  }

  // ----- the shared state

  datatype Result = NotRun | Success | Failed | Dropped | ParametersError | EnqHead
  datatype Status = Submitted | DoneSuccess | DoneCmdError | DoneCmdDrop

  datatype Ctx = Ctx(status: Status, rsp: bool, done: bool)
  datatype Cmd = Cmd(sctx: bool, res: Result, rspBuf: bool)

  datatype CallerPc =
    | Calling          // command built, not yet filtered
    | Admitted         // filter passed, not yet in the queue
    | Waiting          // blocked in rtw_sctx_wait
    | Locking          // woken or timed out, wants sctx_mutex
    | Checking         // behind the lock call, about to test the status
    | Detaching        // the status was SUBMITTED, about to clear the command's pointer
    | Leaving          // about to unlock sctx_mutex
    | Unlocked         // about to read the status once more and return
    | Returned(accepted: bool, gotRsp: bool, status: Status) // with the status read last

  // `answered` is history: whether the thread found the context attached when it tested the pointer.
  datatype Call = Call(req: Request, pc: CallerPc, cmd: Cmd, ctx: Ctx, answered: Answer)
  datatype Answer = NotYet | FoundAttached | FoundDetached

  datatype Phase =
    | Fetched | Running | Finishing              // before the critical section
    | WantLock
    | Testing | Delivering | Retesting | Marking | Completing | Clearing | Disposing | Unlocking // inside it
    | Freeing

  datatype ThreadPc =
    | Idle             // blocked on cmd_queue_sema
    | Fetching         // label _next
    | Busy(k: CallId, phase: Phase, drain: bool)
    | Stopping         // left the loop, cmdthd_running still set
    | Draining         // head of the drain loop
    | Exited

  datatype Owner = ByThread | ByCaller(k: CallId)
  datatype Block = CmdObj(k: CallId) | Extra(k: CallId) | Rsp(k: CallId)

  // accepted, finished, ran, freed, delivered and exitMark are history.
  datatype State = State(
    calls: map<CallId, Call>,
    queue: seq<CallId>,
    thread: ThreadPc,
    running: bool,
    locks: map<AdapterId, Owner>,
    accepted: seq<CallId>,          // in the order of insertion at the tail
    finished: seq<CallId>,          // in the order in which the thread freed them
    ran: seq<CallId>,               // in the order in which handlers ran
    freed: multiset<Block>,
    delivered: multiset<CallId>,    // response buffers stored into a context
    exitMark: nat)                  // |accepted| when the drain loop ended

  const Init := State(map[], [], Idle, true, map[], [], [], [], multiset{}, multiset{}, 0)

  datatype Step =
    // callers
    | Begin(k: CallId, req: Request)
    | Filter(k: CallId, hwInit: bool)
    | Enqueue(k: CallId)
    | Timeout(k: CallId)
    | Wake(k: CallId)
    | CallerLock(k: CallId)
    | LockInterrupted(k: CallId) // the lock call returns -EINTR, which nobody looks at
    | Check(k: CallId)
    | Detach(k: CallId)
    | CallerUnlock(k: CallId)
    | Return(k: CallId)
    // command thread
    | Awake(semaOk: bool, cannotRun: bool)
    | Dequeue(cannotRun: bool)
    | Dispatch(hwInit: bool, aliveOk: bool)
    | Run(ok: bool)
    | Callback(makesRsp: bool)
    | ThreadLock
    | ThreadInterrupted
    | Advance                    // one action inside the critical section
    | Free
    | StopRunning
    | DrainNext
    | Restart                    // the interface comes up again and starts a new thread

  predicate IsCallerStep(step: Step) {
    step.Filter? || step.Enqueue? || step.Timeout? || step.Wake? || step.CallerLock? || step.LockInterrupted?
    || step.Check? || step.Detach? || step.CallerUnlock? || step.Return?
  }

  predicate IsInterruption(step: Step) {
    step.LockInterrupted? || step.ThreadInterrupted?
  }

  predicate Holds(s: State, a: AdapterId, o: Owner) {
    a in s.locks && s.locks[a] == o
  }

  predicate InSection(ph: Phase) {
    || ph.Testing? || ph.Delivering? || ph.Retesting? || ph.Marking? || ph.Completing? || ph.Clearing?
    || ph.Disposing? || ph.Unlocking?
  }

  // ----- the steps

  predicate Enabled(s: State, step: Step) {
    match step
    case Begin(k, _) => k !in s.calls
    case Filter(k, _) => k in s.calls && s.calls[k].pc.Calling?
    case Enqueue(k) => k in s.calls && s.calls[k].pc.Admitted?
    case Timeout(k) => k in s.calls && s.calls[k].pc.Waiting?
    case Wake(k) => k in s.calls && s.calls[k].pc.Waiting? && s.calls[k].ctx.done
    case CallerLock(k) => k in s.calls && s.calls[k].pc.Locking? && s.calls[k].req.adapter !in s.locks
    case LockInterrupted(k) => k in s.calls && s.calls[k].pc.Locking? && s.calls[k].req.adapter in s.locks
    case Check(k) => k in s.calls && s.calls[k].pc.Checking?
    case Detach(k) => k in s.calls && s.calls[k].pc.Detaching?
    case CallerUnlock(k) => k in s.calls && s.calls[k].pc.Leaving?
    case Return(k) => k in s.calls && s.calls[k].pc.Unlocked?
    case Awake(_, _) => s.thread.Idle?
    case Dequeue(_) => s.thread.Fetching?
    case Dispatch(_, _) => s.thread.Busy? && s.thread.k in s.calls && s.thread.phase.Fetched?
    case Run(_) => s.thread.Busy? && s.thread.k in s.calls && s.thread.phase.Running?
    case Callback(_) => s.thread.Busy? && s.thread.k in s.calls && s.thread.phase.Finishing?
    case ThreadLock =>
      && s.thread.Busy? && s.thread.k in s.calls && s.thread.phase.WantLock?
      && s.calls[s.thread.k].req.adapter !in s.locks
    case ThreadInterrupted =>
      && s.thread.Busy? && s.thread.k in s.calls && s.thread.phase.WantLock?
      && s.calls[s.thread.k].req.adapter in s.locks
    case Advance => s.thread.Busy? && s.thread.k in s.calls && InSection(s.thread.phase)
    case Free => s.thread.Busy? && s.thread.k in s.calls && s.thread.phase.Freeing?
    case StopRunning => s.thread.Stopping?
    case DrainNext => s.thread.Draining?
    case Restart => s.thread.Exited?
  }

  function FreeExtra(s: State, k: CallId): multiset<Block>
    requires k in s.calls
  {
    if OwnsExtra(s.calls[k].req) then s.freed + multiset{Extra(k)} else s.freed
  }

  function CallerNext(s: State, step: Step): State
    requires IsCallerStep(step) && Enabled(s, step)
  {
    var k := step.k;
    var c := s.calls[k];
    match step
    case Filter(_, hwInit) =>
      if FilterPasses(c.req, hwInit, s.running) then
        s.(calls := s.calls[k := c.(pc := Admitted)])
      else
        s.(calls := s.calls[k := c.(pc := Returned(false, false, Submitted))],
           freed := FreeExtra(s, k) + multiset{CmdObj(k)})
    case Enqueue(_) =>
      s.(calls := s.calls[k := c.(pc := if c.req.waits then Waiting else Returned(true, false, Submitted))],
         queue := s.queue + [k], accepted := s.accepted + [k])
    case Timeout(_) => s.(calls := s.calls[k := c.(pc := Locking)])
    case Wake(_) => s.(calls := s.calls[k := c.(pc := Locking)])
    case CallerLock(_) =>
      s.(calls := s.calls[k := c.(pc := Checking)], locks := s.locks[c.req.adapter := ByCaller(k)])
    case LockInterrupted(_) => s.(calls := s.calls[k := c.(pc := Checking)])
    case Check(_) => s.(calls := s.calls[k := c.(pc := if c.ctx.status.Submitted? then Detaching else Leaving)])
    case Detach(_) => s.(calls := s.calls[k := c.(pc := Leaving, cmd := c.cmd.(sctx := false))])
    case CallerUnlock(_) => // whoever holds the mutex: unlocking does not look at the owner
      s.(calls := s.calls[k := c.(pc := Unlocked)], locks := s.locks - {c.req.adapter})
    case Return(_) =>
      var gotRsp := c.ctx.status.DoneSuccess? && c.ctx.rsp;
      s.(calls := s.calls[k := c.(pc := Returned(true, gotRsp, c.ctx.status))])
  }

  function DispatchNext(s: State, hwInit: bool, aliveOk: bool): State
    requires Enabled(s, Dispatch(hwInit, aliveOk))
  {
    var k := s.thread.k;
    var c := s.calls[k];
    if s.thread.drain then // the drain loop frees the extra buffer and goes straight to the mutex
      s.(thread := Busy(k, WantLock, true), freed := FreeExtra(s, k))
    else if c.req.code.Unhandled? then
      s.(calls := s.calls[k := c.(cmd := c.cmd.(res := ParametersError))], thread := Busy(k, Finishing, false))
    else if !FilterPasses(c.req, hwInit, s.running) then
      s.(calls := s.calls[k := c.(cmd := c.cmd.(res := Dropped))],
         thread := Busy(k, Finishing, false), freed := FreeExtra(s, k))
    else if !c.req.noIo && !aliveOk then // back to the head of the queue until the firmware is awake
      s.(calls := s.calls[k := c.(cmd := c.cmd.(res := EnqHead))], thread := Idle, queue := [k] + s.queue)
    else
      s.(thread := Busy(k, Running, false))
  }

  // One action between lock and unlock of sctx_mutex, rtw_sctx_done_err unfolded.
  function AdvanceNext(s: State): State
    requires Enabled(s, Advance)
  {
    var Busy(k, ph, drain) := s.thread;
    var c := s.calls[k];
    match ph
    case Testing =>
      if c.cmd.sctx then
        s.(calls := s.calls[k := c.(answered := FoundAttached)],
           thread := Busy(k, if !drain && c.cmd.res.Success? && c.cmd.rspBuf then Delivering else Retesting, drain))
      else
        s.(calls := s.calls[k := c.(answered := FoundDetached)],
           thread := Busy(k, if !drain && c.cmd.rspBuf && c.req.hasRspFree then Disposing else Unlocking, drain))
    case Delivering =>
      s.(calls := s.calls[k := c.(ctx := c.ctx.(rsp := true))], thread := Busy(k, Retesting, drain),
         delivered := s.delivered + multiset{k})
    case Retesting => s.(thread := Busy(k, if c.cmd.sctx then Marking else Unlocking, drain))
    case Marking =>
      var status := if drain then DoneCmdDrop else if c.cmd.res.Success? then DoneSuccess else DoneCmdError;
      s.(calls := s.calls[k := c.(ctx := c.ctx.(status := status))], thread := Busy(k, Completing, drain))
    case Completing =>
      s.(calls := s.calls[k := c.(ctx := c.ctx.(done := true))], thread := Busy(k, Clearing, drain))
    case Clearing =>
      s.(calls := s.calls[k := c.(cmd := c.cmd.(sctx := false))], thread := Busy(k, Unlocking, drain))
    case Disposing =>
      s.(thread := Busy(k, Unlocking, drain), freed := s.freed + multiset{Rsp(k)})
    case _ => // Unlocking
      s.(thread := Busy(k, Freeing, drain), locks := s.locks - {c.req.adapter})
  }

  function Next(s: State, step: Step): State
    requires Enabled(s, step)
  {
    if IsCallerStep(step) then CallerNext(s, step) else
    match step
    case Begin(k, req) =>
      s.(calls := s.calls[k := Call(req, Calling, Cmd(req.waits, NotRun, false), Ctx(Submitted, false, false), NotYet)])
    case Awake(semaOk, cannotRun) =>
      if !semaOk || cannotRun then s.(thread := Stopping)
      else if s.queue == [] then s
      else s.(thread := Fetching)
    case Dequeue(cannotRun) =>
      if cannotRun then s.(thread := Stopping)
      else if s.queue == [] then s.(thread := Idle)
      else s.(thread := Busy(s.queue[0], Fetched, false), queue := s.queue[1..])
    case Dispatch(hwInit, aliveOk) => DispatchNext(s, hwInit, aliveOk)
    case Run(ok) =>
      var k := s.thread.k;
      var c := s.calls[k];
      s.(calls := s.calls[k := c.(cmd := c.cmd.(res := if ok then Success else Failed))],
         thread := s.thread.(phase := Finishing), freed := FreeExtra(s, k), ran := s.ran + [k])
    case Callback(makesRsp) =>
      var k := s.thread.k;
      var c := s.calls[k];
      s.(calls := s.calls[k := c.(cmd := c.cmd.(rspBuf := makesRsp))], thread := s.thread.(phase := WantLock))
    case ThreadLock =>
      s.(thread := s.thread.(phase := Testing), locks := s.locks[s.calls[s.thread.k].req.adapter := ByThread])
    case ThreadInterrupted => s.(thread := s.thread.(phase := Testing))
    case Advance => AdvanceNext(s)
    case Free =>
      var k := s.thread.k;
      s.(thread := if s.thread.drain then Draining else Fetching,
         freed := s.freed + multiset{CmdObj(k)}, finished := s.finished + [k])
    case StopRunning => s.(thread := Draining, running := false)
    case DrainNext =>
      if s.queue == [] then s.(thread := Exited, exitMark := |s.accepted|)
      else s.(thread := Busy(s.queue[0], Fetched, true), queue := s.queue[1..])
    case Restart => s.(thread := Idle, running := true)
    case _ => s
  }

  // The state after a run, or None when some step was not enabled where it was taken.
  function Exec(steps: seq<Step>): Option<State> {
    if steps == [] then Some(Init)
    else
      var before := Exec(steps[..|steps| - 1]);
      var step := steps[|steps| - 1];
      if before.Some? && Enabled(before.value, step) then Some(Next(before.value, step)) else None
  }

  // ----- what a step dereferences

  // Contexts that the command thread reads or writes in this step.
  function ContextsTouched(s: State, step: Step): set<CallId>
    requires Enabled(s, step)
  {
    if step.Advance? && (s.thread.phase.Delivering? || s.thread.phase.Marking? || s.thread.phase.Completing?)
    then {s.thread.k} else {}
  }

  function HeldSet(s: State): set<CallId> {
    if s.thread.Busy? then {s.thread.k} else {}
  }

  // Command objects that the step reads or writes, whoever takes it.
  function CommandsTouched(s: State, step: Step): set<CallId>
    requires Enabled(s, step)
  {
    match step
    case Filter(k, _) => {k}
    case Enqueue(k) => {k}
    case Detach(k) => {k}
    case Dequeue(cannotRun) => if !cannotRun && s.queue != [] then {s.queue[0]} else {}
    case DrainNext => if s.queue != [] then {s.queue[0]} else {}
    case Dispatch(_, _) => HeldSet(s)
    case Run(_) => HeldSet(s)
    case Callback(_) => HeldSet(s)
    case ThreadLock => HeldSet(s)
    case ThreadInterrupted => HeldSet(s)
    case Advance => HeldSet(s)
    case Free => HeldSet(s)
    case _ => {}
  }

  // ----- the invariant

  predicate NoDup<T(==)>(q: seq<T>) {
    forall i, j :: 0 <= i < j < |q| ==> q[i] != q[j]
  }

  // All that the rest of the state says about one call.
  datatype View = View(
    c: Call, accepted: bool, finished: bool,
    at: Option<Phase>, drain: bool,               // the thread's position, when it works on this call
    callerHolds: bool, threadHolds: bool,         // the mutex of the call's adapter
    freedCmd: nat, freedExtra: nat, freedRsp: nat, delivered: nat)

  function ViewOf(s: State, k: CallId): View
    requires k in s.calls
  {
    var c := s.calls[k];
    var busy := s.thread.Busy? && s.thread.k == k;
    View(c, k in s.accepted, k in s.finished,
         if busy then Some(s.thread.phase) else None, busy && s.thread.drain,
         Holds(s, c.req.adapter, ByCaller(k)), busy && Holds(s, c.req.adapter, ByThread),
         s.freed[CmdObj(k)], s.freed[Extra(k)], s.freed[Rsp(k)], s.delivered[k])
  }

  predicate Undetached(pc: CallerPc) {
    pc.Calling? || pc.Admitted? || pc.Waiting? || pc.Locking? || pc.Checking? || pc.Detaching?
  }

  predicate Rejected(c: Call) {
    c.pc.Returned? && !c.pc.accepted
  }

  // Accepted, waiting or gone home.
  predicate PlaceOk(v: View) {
    && (v.accepted <==> !v.c.pc.Calling? && !v.c.pc.Admitted? && !Rejected(v.c))
    && (v.finished || v.at.Some? ==> v.accepted)
    && !(v.finished && v.at.Some?)
    && (AtLock(v.c.pc) || v.c.pc.Waiting? || v.c.pc.Locking? || v.c.pc.Unlocked? ==> v.c.req.waits)
    && (v.drain && v.at.Some? ==> !v.at.value.Running? && !v.at.value.Finishing?)
  }

  // Between the lock call and the unlock.
  predicate AtLock(pc: CallerPc) {
    pc.Checking? || pc.Detaching? || pc.Leaving?
  }

  // The context pointer and the answer against the status and the two program counters.
  predicate PointerOk(v: View) {
    var c := v.c;
    && (c.req.waits && Undetached(c.pc) && c.ctx.status.Submitted? ==> c.cmd.sctx)
    && (v.at == Some(Delivering) || v.at == Some(Retesting) || v.at == Some(Marking) ==>
          c.ctx.status.Submitted? && c.answered.FoundAttached?)
    && (v.at == Some(Delivering) ==> c.cmd.res.Success? && c.cmd.rspBuf)
    && (v.at == Some(Completing) || v.at == Some(Clearing) ==> !c.ctx.status.Submitted? && c.answered.FoundAttached?)
    && (v.at == Some(Disposing) ==> c.answered.FoundDetached? && c.cmd.rspBuf && c.req.hasRspFree)
    && (v.at == Some(Disposing) || v.at == Some(Unlocking) || v.at == Some(Freeing) || v.finished ==>
          !c.cmd.sctx && !c.answered.NotYet?)
    && (!v.finished && (v.at.None? || BeforeAnswer(v.at.value)) ==> c.answered.NotYet? && c.ctx.status.Submitted?)
  }

  // What the mutex is for: nobody is between lock and unlock without it, and so the context is there as long
  // as the thread has not let go of it.
  predicate SoundOk(v: View) {
    var c := v.c;
    && (AtLock(c.pc) ==> v.callerHolds)
    && (v.at.Some? && InSection(v.at.value) ==> v.threadHolds)
    && !(v.callerHolds && v.threadHolds)
    && (c.cmd.sctx && !Rejected(c) ==> c.req.waits && Undetached(c.pc))
    && (v.at.Some? && UsesContext(v.at.value) ==> c.cmd.sctx)
    && (c.pc.Detaching? ==> c.ctx.status.Submitted?)
    && (v.delivered == 1 && v.at != Some(Retesting) && v.at != Some(Marking) ==> c.ctx.status.DoneSuccess?)
    && (c.pc.Returned? ==> (c.pc.gotRsp <==> v.delivered == 1))
  }

  predicate UsesContext(ph: Phase) {
    ph.Delivering? || ph.Retesting? || ph.Marking? || ph.Completing? || ph.Clearing?
  }

  predicate BeforeAnswer(ph: Phase) {
    ph.Fetched? || ph.Running? || ph.Finishing? || ph.WantLock? || ph.Testing?
  }

  predicate BeforeRelease(ph: Phase) {
    ph.Fetched? || ph.Running?
  }

  // Every block is released at most once, and exactly when its command is done with.
  predicate MemoryOk(v: View) {
    && v.freedCmd == (if Rejected(v.c) || v.finished then 1 else 0)
    && v.freedExtra ==
       (if OwnsExtra(v.c.req) && (Rejected(v.c) || v.finished || (v.at.Some? && !BeforeRelease(v.at.value)))
        then 1 else 0)
  }

  // Where the response buffer of a command is.
  predicate ResponseOk(v: View) {
    var c := v.c;
    && (c.cmd.rspBuf && !v.finished ==>
          v.at.Some? && !v.drain && !BeforeRelease(v.at.value) && !v.at.value.Finishing?)
    && v.delivered ==
       (if c.answered.FoundAttached? && c.cmd.res.Success? && c.cmd.rspBuf && v.at != Some(Delivering) then 1 else 0)
    && v.freedRsp ==
       (if c.answered.FoundDetached? && c.cmd.rspBuf && c.req.hasRspFree && v.at != Some(Disposing) then 1 else 0)
    && (c.ctx.rsp <==> v.delivered == 1)
  }

  // Holds in every run; with SoundOk, in every run in which no lock call was interrupted.
  predicate ViewOk(v: View) {
    PlaceOk(v) && PointerOk(v) && MemoryOk(v) && ResponseOk(v)
  }

  predicate SameButLocks(v: View, w: View) {
    v == w.(callerHolds := v.callerHolds, threadHolds := v.threadHolds)
  }

  predicate InOrder(ran: seq<CallId>, accepted: seq<CallId>) {
    forall i, j, p, q ::
      0 <= i < j < |ran| && 0 <= p < |accepted| && 0 <= q < |accepted| && accepted[p] == ran[i] && accepted[q] == ran[j]
      ==> p < q
  }

  // The queue as a whole: what is done, in hand and to do is what was accepted, in that order.
  datatype Line = Line(finished: seq<CallId>, held: seq<CallId>, queue: seq<CallId>, accepted: seq<CallId>,
                       exited: bool, exitMark: nat)

  function LineOf(s: State): Line {
    Line(s.finished, if s.thread.Busy? then [s.thread.k] else [], s.queue, s.accepted, s.thread.Exited?, s.exitMark)
  }

  predicate LineOk(l: Line) {
    && l.finished + l.held + l.queue == l.accepted
    && NoDup(l.accepted)
    && (l.exited ==> l.exitMark == |l.finished|)
  }

  ghost predicate Known(s: State) {
    forall k :: k in s.accepted ==> k in s.calls
  }

  // The command in hand once its handler may have run.
  function Worked(s: State): set<CallId> {
    if s.thread.Busy? && !BeforeRelease(s.thread.phase) then {s.thread.k} else {}
  }

  ghost predicate RanOk(s: State) {
    && InOrder(s.ran, s.accepted)
    && (forall k :: k in s.ran ==> k in s.finished || k in Worked(s))
  }

  ghost predicate FreshOk(s: State) {
    forall k :: k !in s.calls ==> Untouched(s, k)
  }

  // What holds in every run.
  ghost predicate Base(s: State) {
    LineOk(LineOf(s)) && Known(s) && RanOk(s) && FreshOk(s) && forall k :: k in s.calls ==> ViewOk(ViewOf(s, k))
  }

  // What the mutex adds to it.
  ghost predicate Sound(s: State) {
    forall k :: k in s.calls ==> SoundOk(ViewOf(s, k))
  }

  // ----- every step keeps the invariant

  // The call a step is about, if any.
  function Actor(s: State, step: Step): Option<CallId>
    requires Enabled(s, step)
  {
    match step
    case Awake(_, _) => None
    case StopRunning => None
    case Restart => None
    case Dequeue(cannotRun) => if !cannotRun && s.queue != [] then Some(s.queue[0]) else None
    case DrainNext => if s.queue != [] then Some(s.queue[0]) else None
    case Dispatch(_, _) => Some(s.thread.k)
    case Run(_) => Some(s.thread.k)
    case Callback(_) => Some(s.thread.k)
    case ThreadLock => Some(s.thread.k)
    case ThreadInterrupted => Some(s.thread.k)
    case Advance => Some(s.thread.k)
    case Free => Some(s.thread.k)
    case _ => Some(step.k)
  }

  lemma SubmitOwn(s: State, step: Step)
    requires step.Filter? || step.Enqueue?
    requires Enabled(s, step) && ViewOk(ViewOf(s, step.k))
    ensures ViewOk(ViewOf(Next(s, step), step.k))
    ensures !IsInterruption(step) && SoundOk(ViewOf(s, step.k)) ==> SoundOk(ViewOf(Next(s, step), step.k))
  {
  }

  lemma WaitOwn(s: State, step: Step)
    requires step.Timeout? || step.Wake? || step.CallerLock? || step.LockInterrupted?
    requires Enabled(s, step) && ViewOk(ViewOf(s, step.k))
    ensures ViewOk(ViewOf(Next(s, step), step.k))
    ensures !IsInterruption(step) && SoundOk(ViewOf(s, step.k)) ==> SoundOk(ViewOf(Next(s, step), step.k))
  {
  }

  lemma DetachOwn(s: State, step: Step)
    requires step.Check? || step.Detach?
    requires Enabled(s, step) && ViewOk(ViewOf(s, step.k))
    ensures ViewOk(ViewOf(Next(s, step), step.k))
    ensures SoundOk(ViewOf(s, step.k)) ==> SoundOk(ViewOf(Next(s, step), step.k))
  {
  }

  lemma ReturnOwn(s: State, step: Step)
    requires step.CallerUnlock? || step.Return?
    requires Enabled(s, step) && ViewOk(ViewOf(s, step.k))
    ensures ViewOk(ViewOf(Next(s, step), step.k))
    ensures SoundOk(ViewOf(s, step.k)) ==> SoundOk(ViewOf(Next(s, step), step.k))
  {
  }

  lemma SubmitOther(s: State, step: Step, k: CallId)
    requires step.Filter? || step.Enqueue? || step.Timeout? || step.Wake? || step.LockInterrupted?
    requires Enabled(s, step) && k in s.calls && k != step.k
    ensures ViewOf(Next(s, step), k) == ViewOf(s, k)
  {
  }

  lemma DetachOther(s: State, step: Step, k: CallId)
    requires step.CallerLock? || step.Check? || step.Detach? || step.CallerUnlock? || step.Return?
    requires Enabled(s, step) && k in s.calls && k != step.k
    ensures SameButLocks(ViewOf(Next(s, step), k), ViewOf(s, k))
    ensures SoundOk(ViewOf(s, step.k)) ==> ViewOf(Next(s, step), k) == ViewOf(s, k)
  {
  }

  lemma TestOwn(s: State)
    requires Enabled(s, Advance) && ViewOk(ViewOf(s, s.thread.k)) && s.thread.phase.Testing?
    requires s.calls[s.thread.k].cmd.sctx
    ensures ViewOk(ViewOf(Next(s, Advance), s.thread.k))
  {
  }

  lemma TestNullOwn(s: State)
    requires Enabled(s, Advance) && ViewOk(ViewOf(s, s.thread.k)) && s.thread.phase.Testing?
    requires !s.calls[s.thread.k].cmd.sctx
    ensures ViewOk(ViewOf(Next(s, Advance), s.thread.k))
  {
  }

  lemma TestSound(s: State)
    requires Enabled(s, Advance) && ViewOk(ViewOf(s, s.thread.k)) && s.thread.phase.Testing?
    ensures SoundOk(ViewOf(s, s.thread.k)) ==> SoundOk(ViewOf(Next(s, Advance), s.thread.k))
  {
  }

  lemma DeliverOwn(s: State)
    requires Enabled(s, Advance) && ViewOk(ViewOf(s, s.thread.k))
    requires s.thread.phase.Delivering? || s.thread.phase.Retesting?
    ensures ViewOk(ViewOf(Next(s, Advance), s.thread.k))
    ensures SoundOk(ViewOf(s, s.thread.k)) ==> SoundOk(ViewOf(Next(s, Advance), s.thread.k))
  {
  }

  lemma MarkOwn(s: State)
    requires Enabled(s, Advance) && ViewOk(ViewOf(s, s.thread.k))
    requires s.thread.phase.Marking? || s.thread.phase.Completing?
    ensures ViewOk(ViewOf(Next(s, Advance), s.thread.k))
    ensures SoundOk(ViewOf(s, s.thread.k)) ==> SoundOk(ViewOf(Next(s, Advance), s.thread.k))
  {
  }

  lemma ReleaseOwn(s: State)
    requires Enabled(s, Advance) && ViewOk(ViewOf(s, s.thread.k))
    requires s.thread.phase.Clearing? || s.thread.phase.Disposing? || s.thread.phase.Unlocking?
    ensures ViewOk(ViewOf(Next(s, Advance), s.thread.k))
  {
  }

  lemma ReleaseSound(s: State)
    requires Enabled(s, Advance) && ViewOk(ViewOf(s, s.thread.k))
    requires s.thread.phase.Clearing? || s.thread.phase.Disposing? || s.thread.phase.Unlocking?
    ensures SoundOk(ViewOf(s, s.thread.k)) ==> SoundOk(ViewOf(Next(s, Advance), s.thread.k))
  {
  }

  lemma DeliverOther(s: State, k: CallId)
    requires Enabled(s, Advance) && k in s.calls && k != s.thread.k
    requires !s.thread.phase.Clearing? && !s.thread.phase.Disposing? && !s.thread.phase.Unlocking?
    ensures ViewOf(Next(s, Advance), k) == ViewOf(s, k)
  {
  }

  lemma ReleaseOther(s: State, k: CallId)
    requires Enabled(s, Advance) && k in s.calls && k != s.thread.k
    requires s.thread.phase.Clearing? || s.thread.phase.Disposing?
    ensures ViewOf(Next(s, Advance), k) == ViewOf(s, k)
  {
  }

  lemma UnlockOther(s: State, k: CallId)
    requires Enabled(s, Advance) && k in s.calls && k != s.thread.k && s.thread.phase.Unlocking?
    ensures SameButLocks(ViewOf(Next(s, Advance), k), ViewOf(s, k))
    ensures SoundOk(ViewOf(s, s.thread.k)) ==> ViewOf(Next(s, Advance), k) == ViewOf(s, k)
  {
  }

  lemma DrainOwn(s: State, step: Step)
    requires step.Dispatch? && Enabled(s, step) && s.thread.drain && ViewOk(ViewOf(s, s.thread.k))
    ensures ViewOk(ViewOf(Next(s, step), s.thread.k))
    ensures !IsInterruption(step) && SoundOk(ViewOf(s, s.thread.k)) ==> SoundOk(ViewOf(Next(s, step), s.thread.k))
  {
  }

  lemma DropOwn(s: State, step: Step)
    requires step.Dispatch? && Enabled(s, step) && !s.thread.drain && ViewOk(ViewOf(s, s.thread.k))
    requires var r := s.calls[s.thread.k].req; r.code.Unhandled? || !FilterPasses(r, step.hwInit, s.running)
    ensures ViewOk(ViewOf(Next(s, step), s.thread.k))
    ensures !IsInterruption(step) && SoundOk(ViewOf(s, s.thread.k)) ==> SoundOk(ViewOf(Next(s, step), s.thread.k))
  {
  }

  lemma DispatchOwn(s: State, step: Step)
    requires step.Dispatch? && Enabled(s, step) && !s.thread.drain && ViewOk(ViewOf(s, s.thread.k))
    requires var r := s.calls[s.thread.k].req; !r.code.Unhandled? && FilterPasses(r, step.hwInit, s.running)
    ensures ViewOk(ViewOf(Next(s, step), s.thread.k))
    ensures !IsInterruption(step) && SoundOk(ViewOf(s, s.thread.k)) ==> SoundOk(ViewOf(Next(s, step), s.thread.k))
  {
  }

  lemma RunOwn(s: State, step: Step)
    requires step.Run? && Enabled(s, step) && ViewOk(ViewOf(s, s.thread.k))
    ensures ViewOk(ViewOf(Next(s, step), s.thread.k))
    ensures !IsInterruption(step) && SoundOk(ViewOf(s, s.thread.k)) ==> SoundOk(ViewOf(Next(s, step), s.thread.k))
  {
  }

  lemma HandleOwn(s: State, step: Step)
    requires step.Callback? && Enabled(s, step) && ViewOk(ViewOf(s, s.thread.k))
    ensures ViewOk(ViewOf(Next(s, step), s.thread.k))
    ensures SoundOk(ViewOf(s, s.thread.k)) ==> SoundOk(ViewOf(Next(s, step), s.thread.k))
  {
  }

  lemma LockOwn(s: State, step: Step)
    requires step.ThreadLock? || step.ThreadInterrupted?
    requires Enabled(s, step) && ViewOk(ViewOf(s, s.thread.k))
    ensures ViewOk(ViewOf(Next(s, step), s.thread.k))
    ensures !IsInterruption(step) && SoundOk(ViewOf(s, s.thread.k)) ==> SoundOk(ViewOf(Next(s, step), s.thread.k))
  {
  }

  lemma FreeOwn(s: State)
    requires Enabled(s, Free) && ViewOk(ViewOf(s, s.thread.k))
    ensures ViewOk(ViewOf(Next(s, Free), s.thread.k))
    ensures SoundOk(ViewOf(s, s.thread.k)) ==> SoundOk(ViewOf(Next(s, Free), s.thread.k))
  {
  }

  lemma FetchOwn(s: State, step: Step, k: CallId)
    requires step.Dequeue? || step.DrainNext?
    requires Enabled(s, step) && Actor(s, step) == Some(k) && k in s.calls && ViewOk(ViewOf(s, k))
    requires k in s.accepted && k !in s.finished
    ensures ViewOk(ViewOf(Next(s, step), k))
    ensures !IsInterruption(step) && SoundOk(ViewOf(s, k)) ==> SoundOk(ViewOf(Next(s, step), k))
  {
  }

  lemma DispatchOther(s: State, hwInit: bool, aliveOk: bool, k: CallId)
    requires Enabled(s, Dispatch(hwInit, aliveOk)) && k in s.calls && k != s.thread.k
    ensures ViewOf(DispatchNext(s, hwInit, aliveOk), k) == ViewOf(s, k)
  {
  }

  lemma HandleOther(s: State, step: Step, k: CallId)
    requires step.Run? || step.Callback?
    requires Enabled(s, step) && k in s.calls && k != s.thread.k
    ensures ViewOf(Next(s, step), k) == ViewOf(s, k)
  {
  }

  lemma ThreadOther(s: State, step: Step, k: CallId)
    requires step.ThreadLock? || step.ThreadInterrupted? || step.Free?
    requires Enabled(s, step) && k in s.calls && Actor(s, step) != Some(k)
    ensures ViewOf(Next(s, step), k) == ViewOf(s, k)
  {
  }

  lemma IdleOther(s: State, step: Step, k: CallId)
    requires step.Dequeue? || step.DrainNext? || step.Awake? || step.StopRunning? || step.Restart?
    requires Enabled(s, step) && k in s.calls && Actor(s, step) != Some(k)
    ensures ViewOf(Next(s, step), k) == ViewOf(s, k)
  {
  }

  lemma CallerOwn(s: State, step: Step)
    requires IsCallerStep(step) && Enabled(s, step) && ViewOk(ViewOf(s, step.k))
    ensures ViewOk(ViewOf(Next(s, step), step.k))
    ensures !IsInterruption(step) && SoundOk(ViewOf(s, step.k)) ==> SoundOk(ViewOf(Next(s, step), step.k))
  {
    if step.Filter? || step.Enqueue? { SubmitOwn(s, step); }
    else if step.Check? || step.Detach? { DetachOwn(s, step); }
    else if step.CallerUnlock? || step.Return? { ReturnOwn(s, step); }
    else { WaitOwn(s, step); }
  }

  lemma AdvanceOwn(s: State)
    requires Enabled(s, Advance) && ViewOk(ViewOf(s, s.thread.k))
    ensures ViewOk(ViewOf(Next(s, Advance), s.thread.k))
    ensures SoundOk(ViewOf(s, s.thread.k)) ==> SoundOk(ViewOf(Next(s, Advance), s.thread.k))
  {
    var ph := s.thread.phase;
    if ph.Testing? {
      if s.calls[s.thread.k].cmd.sctx { TestOwn(s); } else { TestNullOwn(s); }
      TestSound(s);
    }
    else if ph.Delivering? || ph.Retesting? { DeliverOwn(s); }
    else if ph.Marking? || ph.Completing? { MarkOwn(s); }
    else { ReleaseOwn(s); ReleaseSound(s); }
  }

  lemma ThreadOwn(s: State, step: Step)
    requires step.Dispatch? || step.Run? || step.Callback? || step.ThreadLock? || step.ThreadInterrupted?
    requires Enabled(s, step) && ViewOk(ViewOf(s, s.thread.k))
    ensures ViewOk(ViewOf(Next(s, step), s.thread.k))
    ensures !IsInterruption(step) && SoundOk(ViewOf(s, s.thread.k)) ==> SoundOk(ViewOf(Next(s, step), s.thread.k))
  {
    if step.Dispatch? {
      var r := s.calls[s.thread.k].req;
      if s.thread.drain { DrainOwn(s, step); }
      else if r.code.Unhandled? || !FilterPasses(r, step.hwInit, s.running) { DropOwn(s, step); }
      else { DispatchOwn(s, step); }
    } else if step.Run? {
      RunOwn(s, step);
    } else if step.Callback? {
      HandleOwn(s, step);
    } else {
      LockOwn(s, step);
    }
  }

  lemma OwnKept(s: State, step: Step, k: CallId)
    requires Enabled(s, step) && Actor(s, step) == Some(k) && !step.Begin?
    requires k in s.calls && ViewOk(ViewOf(s, k))
    requires step.Dequeue? || step.DrainNext? ==> k in s.accepted && k !in s.finished
    ensures ViewOk(ViewOf(Next(s, step), k))
    ensures !IsInterruption(step) && SoundOk(ViewOf(s, k)) ==> SoundOk(ViewOf(Next(s, step), k))
  {
    if IsCallerStep(step) { CallerOwn(s, step); }
    else if step.Advance? { AdvanceOwn(s); }
    else if step.Free? { FreeOwn(s); }
    else if step.Dequeue? || step.DrainNext? { FetchOwn(s, step, k); }
    else { ThreadOwn(s, step); }
  }

  lemma CallerOther(s: State, step: Step, k: CallId)
    requires IsCallerStep(step) && Enabled(s, step) && step.k != k && k in s.calls
    ensures SameButLocks(ViewOf(Next(s, step), k), ViewOf(s, k))
    ensures SoundOk(ViewOf(s, step.k)) ==> ViewOf(Next(s, step), k) == ViewOf(s, k)
  {
    if step.CallerLock? || step.Check? || step.Detach? || step.CallerUnlock? || step.Return? {
      DetachOther(s, step, k);
    } else {
      SubmitOther(s, step, k);
    }
  }

  lemma AdvanceOther(s: State, k: CallId)
    requires Enabled(s, Advance) && s.thread.k != k && k in s.calls
    ensures SameButLocks(ViewOf(Next(s, Advance), k), ViewOf(s, k))
    ensures SoundOk(ViewOf(s, s.thread.k)) ==> ViewOf(Next(s, Advance), k) == ViewOf(s, k)
  {
    var ph := s.thread.phase;
    if ph.Unlocking? { UnlockOther(s, k); }
    else if ph.Clearing? || ph.Disposing? { ReleaseOther(s, k); }
    else { DeliverOther(s, k); }
  }

  lemma WorkOther(s: State, step: Step, k: CallId)
    requires Enabled(s, step) && Actor(s, step) != Some(k) && k in s.calls
    requires !IsCallerStep(step) && !step.Begin? && !step.Advance?
    ensures ViewOf(Next(s, step), k) == ViewOf(s, k)
  {
    if step.Dispatch? { DispatchOther(s, step.hwInit, step.aliveOk, k); }
    else if step.Run? || step.Callback? { HandleOther(s, step, k); }
    else if step.ThreadLock? || step.ThreadInterrupted? || step.Free? { ThreadOther(s, step, k); }
    else { IdleOther(s, step, k); }
  }

  lemma OtherKept(s: State, step: Step, k: CallId)
    requires Enabled(s, step) && Actor(s, step) != Some(k) && k in s.calls && !step.Begin?
    requires Actor(s, step).Some? ==> Actor(s, step).value in s.calls
    ensures SameButLocks(ViewOf(Next(s, step), k), ViewOf(s, k))
    ensures (Actor(s, step).Some? ==> SoundOk(ViewOf(s, Actor(s, step).value))) ==>
      ViewOf(Next(s, step), k) == ViewOf(s, k)
  {
    if IsCallerStep(step) { CallerOther(s, step, k); }
    else if step.Advance? { AdvanceOther(s, k); }
    else { WorkOther(s, step, k); }
  }

  lemma BeginKept(s: State, step: Step, k: CallId)
    requires step.Begin? && Enabled(s, step) && k in Next(s, step).calls
    requires LineOk(LineOf(s)) && Known(s) && FreshOk(s) && (k in s.calls ==> ViewOk(ViewOf(s, k)))
    ensures ViewOk(ViewOf(Next(s, step), k))
    ensures (k in s.calls ==> SoundOk(ViewOf(s, k))) ==> SoundOk(ViewOf(Next(s, step), k))
  {
  }

  lemma SameLine(s: State, step: Step)
    requires Enabled(s, step) && !step.Enqueue? && !step.Dequeue? && !step.DrainNext? && !step.Free? && !step.Dispatch?
      && !step.Restart?
    ensures LineOf(Next(s, step)) == LineOf(s)
  {
  }

  lemma FetchLine(s: State, step: Step)
    requires step.Dequeue? || step.DrainNext?
    requires Enabled(s, step) && LineOk(LineOf(s))
    ensures LineOk(LineOf(Next(s, step)))
  {
  }

  lemma DispatchLine(s: State, step: Step)
    requires step.Dispatch? && Enabled(s, step) && LineOk(LineOf(s))
    ensures LineOk(LineOf(Next(s, step)))
  {
  }

  lemma LineKept(s: State, step: Step)
    requires Enabled(s, step) && LineOk(LineOf(s))
    requires step.Enqueue? ==> step.k !in s.accepted
    ensures LineOk(LineOf(Next(s, step)))
  {
    var l := LineOf(s);
    match step
    case Enqueue(k) => assert l.finished + l.held + (l.queue + [k]) == l.accepted + [k];
    case Free => assert l.finished + l.held + l.queue == (l.finished + [s.thread.k]) + [] + l.queue;
    case Dequeue(_) => FetchLine(s, step);
    case DrainNext => FetchLine(s, step);
    case Dispatch(_, _) => DispatchLine(s, step);
    case Restart => assert LineOf(Next(s, step)) == l.(exited := false);
    case _ => SameLine(s, step);
  }

  lemma RunInOrder(ran: seq<CallId>, accepted: seq<CallId>, finished: seq<CallId>, k: CallId)
    requires NoDup(accepted) && InOrder(ran, accepted) && finished + [k] <= accepted
    requires forall j :: j in ran ==> j in finished
    ensures InOrder(ran + [k], accepted)
  {
    forall i, p, q | 0 <= i < |ran| && 0 <= p < |accepted| && 0 <= q < |accepted|
      && accepted[p] == ran[i] && accepted[q] == k
      ensures p < q
    {
      assert ran[i] in finished;
      var r :| 0 <= r < |finished| && finished[r] == ran[i];
      assert accepted[r] == finished[r] && accepted[|finished|] == k;
    }
  }

  lemma LaterInOrder(ran: seq<CallId>, accepted: seq<CallId>, k: CallId)
    requires InOrder(ran, accepted) && k !in ran
    ensures InOrder(ran, accepted + [k])
  {
  }

  lemma CallerWorked(s: State, step: Step)
    requires Enabled(s, step) && (IsCallerStep(step) || step.Begin?)
    ensures Next(s, step).ran == s.ran && Next(s, step).finished == s.finished && Next(s, step).thread == s.thread
  {
  }

  lemma DispatchWorked(s: State, step: Step)
    requires step.Dispatch? && Enabled(s, step)
    ensures Next(s, step).ran == s.ran && Next(s, step).finished == s.finished && Worked(s) <= Worked(Next(s, step))
  {
  }

  lemma SectionWorked(s: State)
    requires Enabled(s, Advance)
    ensures var t := Next(s, Advance);
      && t.ran == s.ran && t.finished == s.finished
      && t.thread.Busy? && t.thread.k == s.thread.k && !BeforeRelease(t.thread.phase)
  {
  }

  lemma ThreadWorked(s: State, step: Step)
    requires Enabled(s, step) && !IsCallerStep(step) && !step.Begin? && !step.Run? && !step.Dispatch? && !step.Advance?
    ensures Next(s, step).ran == s.ran
    ensures if step.Free? then Next(s, step).finished == s.finished + [s.thread.k]
            else Next(s, step).finished == s.finished && Worked(s) <= Worked(Next(s, step))
  {
  }

  lemma RanKept(s: State, step: Step)
    requires Enabled(s, step) && LineOk(LineOf(s)) && RanOk(s)
    requires step.Enqueue? ==> step.k !in s.accepted
    ensures RanOk(Next(s, step))
  {
    var l := LineOf(s);
    if step.Run? {
      assert l.finished + [s.thread.k] + l.queue == s.accepted;
      RunInOrder(s.ran, s.accepted, s.finished, s.thread.k);
    } else {
      AcceptedGrows(s, step);
      if IsCallerStep(step) || step.Begin? { CallerWorked(s, step); }
      else if step.Dispatch? { DispatchWorked(s, step); }
      else if step.Advance? { SectionWorked(s); }
      else { ThreadWorked(s, step); }
      if step.Enqueue? {
        assert forall k :: k in l.finished || k in l.held ==> k in l.finished + l.held + l.queue;
        LaterInOrder(s.ran, s.accepted, step.k);
      }
    }
  }

  predicate Untouched(s: State, k: CallId) {
    s.freed[CmdObj(k)] == 0 && s.freed[Extra(k)] == 0 && s.freed[Rsp(k)] == 0 && s.delivered[k] == 0
  }

  lemma CallerFresh(s: State, step: Step, k: CallId)
    requires Enabled(s, step) && IsCallerStep(step) && k !in s.calls && Untouched(s, k)
    ensures Untouched(CallerNext(s, step), k)
  {
  }

  lemma SectionFresh(s: State, k: CallId)
    requires Enabled(s, Advance) && k !in s.calls && Untouched(s, k)
    ensures Untouched(AdvanceNext(s), k)
  {
  }

  lemma ThreadFresh(s: State, step: Step, k: CallId)
    requires Enabled(s, step) && !IsCallerStep(step) && !step.Advance? && k !in s.calls && Untouched(s, k)
    ensures Untouched(Next(s, step), k)
  {
  }

  lemma CallerCalls(s: State, step: Step)
    requires Enabled(s, step) && IsCallerStep(step)
    ensures Next(s, step).calls.Keys == s.calls.Keys
  {
  }

  lemma CallsGrow(s: State, step: Step)
    requires Enabled(s, step)
    ensures Next(s, step).calls.Keys == if step.Begin? then s.calls.Keys + {step.k} else s.calls.Keys
  {
    if IsCallerStep(step) { CallerCalls(s, step); }
  }

  // Every step of every caller and of the thread keeps the basic invariant.
  lemma StepKeepsBase(s: State, step: Step)
    requires Base(s) && Enabled(s, step)
    ensures Base(Next(s, step))
  {
    var t := Next(s, step);
    CallsGrow(s, step);
    assert step.Enqueue? ==> step.k !in s.accepted by {
      assert step.Enqueue? ==> ViewOk(ViewOf(s, step.k));
    }
    LineKept(s, step);
    RanKept(s, step);
    assert Known(t) by { AcceptedGrows(s, step); }
    forall k | k !in t.calls ensures Untouched(t, k) {
      if IsCallerStep(step) { CallerFresh(s, step, k); }
      else if step.Advance? { SectionFresh(s, k); }
      else { ThreadFresh(s, step, k); }
    }
    forall k | k in t.calls ensures ViewOk(ViewOf(t, k)) {
      ViewKept(s, step, k);
    }
  }

  /** Every step but an interrupted lock call keeps everybody between lock and unlock in possession of the
      mutex, and contexts in place. */
  lemma StepKeepsSound(s: State, step: Step)
    requires Base(s) && Sound(s) && Enabled(s, step) && !IsInterruption(step)
    ensures Sound(Next(s, step))
  {
    CallsGrow(s, step);
    forall k | k in Next(s, step).calls ensures SoundOk(ViewOf(Next(s, step), k)) {
      ViewKept(s, step, k);
    }
  }

  lemma CallerAccepted(s: State, step: Step)
    requires Enabled(s, step) && IsCallerStep(step)
    ensures CallerNext(s, step).accepted == if step.Enqueue? then s.accepted + [step.k] else s.accepted
  {
  }

  lemma AcceptedGrows(s: State, step: Step)
    requires Enabled(s, step)
    ensures Next(s, step).accepted == if step.Enqueue? then s.accepted + [step.k] else s.accepted
  {
    if IsCallerStep(step) { CallerAccepted(s, step); }
  }

  lemma ViewKept(s: State, step: Step, k: CallId)
    requires LineOk(LineOf(s)) && Known(s) && FreshOk(s) && forall j :: j in s.calls ==> ViewOk(ViewOf(s, j))
    requires Enabled(s, step) && k in Next(s, step).calls
    ensures ViewOk(ViewOf(Next(s, step), k))
    ensures Sound(s) && !IsInterruption(step) ==> SoundOk(ViewOf(Next(s, step), k))
  {
    CallsGrow(s, step);
    if step.Begin? {
      BeginKept(s, step, k);
    } else {
      ActorKnown(s, step);
      ActedOn(s, step, k, Actor(s, step));
    }
  }

  lemma ActedOn(s: State, step: Step, k: CallId, a: Option<CallId>)
    requires Enabled(s, step) && !step.Begin? && a == Actor(s, step) && k in s.calls && ViewOk(ViewOf(s, k))
    requires a.Some? ==>
      a.value in s.calls && (step.Dequeue? || step.DrainNext? ==> a.value in s.accepted && a.value !in s.finished)
    requires k in Next(s, step).calls
    ensures ViewOk(ViewOf(Next(s, step), k))
    ensures (a.Some? ==> SoundOk(ViewOf(s, a.value))) && SoundOk(ViewOf(s, k)) && !IsInterruption(step) ==>
      SoundOk(ViewOf(Next(s, step), k))
  {
    if a == Some(k) { OwnKept(s, step, k); } else { OtherKept(s, step, k); }
  }

  lemma ActorKnown(s: State, step: Step)
    requires LineOk(LineOf(s)) && Known(s) && Enabled(s, step) && !step.Begin?
    ensures Actor(s, step).Some? ==>
      var a := Actor(s, step).value;
      a in s.calls && (step.Dequeue? || step.DrainNext? ==> a in s.accepted && a !in s.finished)
  {
    if (step.Dequeue? || step.DrainNext?) && s.queue != [] {
      assert LineOf(s).held == [] && s.accepted[|s.finished|] == s.queue[0];
      assert forall i :: 0 <= i < |s.finished| ==> s.accepted[i] == s.finished[i];
    }
  }

  ghost predicate Uninterrupted(steps: seq<Step>) {
    forall i :: 0 <= i < |steps| ==> !IsInterruption(steps[i])
  }

  lemma {:induction false} RunKeepsBase(steps: seq<Step>)
    requires Exec(steps).Some?
    ensures Base(Exec(steps).value)
  {
    if steps != [] {
      var prefix := steps[..|steps| - 1];
      RunKeepsBase(prefix);
      StepKeepsBase(Exec(prefix).value, steps[|steps| - 1]);
    }
  }

  lemma {:induction false} RunKeepsSound(steps: seq<Step>)
    requires Exec(steps).Some? && Uninterrupted(steps)
    ensures Sound(Exec(steps).value)
  {
    if steps != [] {
      var prefix := steps[..|steps| - 1];
      RunKeepsSound(prefix);
      RunKeepsBase(prefix);
      StepKeepsSound(Exec(prefix).value, steps[|steps| - 1]);
    }
  }

  // ----- the main results

  lemma TouchedByActor(s: State, step: Step)
    requires Enabled(s, step)
    ensures forall k :: k in ContextsTouched(s, step) || k in CommandsTouched(s, step) ==> Actor(s, step) == Some(k)
  {
  }

  // A step that the thread could regret: it goes through a pointer that is NULL or to the context of a caller
  // that has returned; or somebody reads or writes a command object that is freed.
  ghost predicate Dangles(s: State, step: Step)
    requires Enabled(s, step)
  {
    || (exists k :: k in ContextsTouched(s, step) && (k !in s.calls || s.calls[k].pc.Returned? || !s.calls[k].cmd.sctx))
    || (exists k :: k in CommandsTouched(s, step) && s.freed[CmdObj(k)] > 0)
  }

  lemma ContextSafe(s: State, step: Step, k: CallId)
    requires Enabled(s, step) && k in ContextsTouched(s, step) && k in s.calls && ViewOk(ViewOf(s, k))
    requires SoundOk(ViewOf(s, k))
    ensures !s.calls[k].pc.Returned? && s.calls[k].cmd.sctx
  {
  }

  lemma CommandSafe(s: State, step: Step, k: CallId)
    requires Enabled(s, step) && k in CommandsTouched(s, step) && k in s.calls && ViewOk(ViewOf(s, k))
    requires SoundOk(ViewOf(s, k))
    requires step.Dequeue? || step.DrainNext? ==> k in s.accepted && k !in s.finished
    ensures s.freed[CmdObj(k)] == 0
  {
  }

  lemma ContextsSafe(s: State, step: Step, a: Option<CallId>)
    requires Enabled(s, step) && a == Actor(s, step) && !step.Begin?
    requires a.Some? ==> a.value in s.calls && ViewOk(ViewOf(s, a.value)) && SoundOk(ViewOf(s, a.value))
    ensures forall k :: k in ContextsTouched(s, step) ==>
      k in s.calls && !s.calls[k].pc.Returned? && s.calls[k].cmd.sctx
  {
    TouchedByActor(s, step);
    if a.Some? && a.value in ContextsTouched(s, step) { ContextSafe(s, step, a.value); }
  }

  lemma CommandsSafe(s: State, step: Step, a: Option<CallId>)
    requires Enabled(s, step) && a == Actor(s, step) && !step.Begin?
    requires a.Some? ==> a.value in s.calls && ViewOk(ViewOf(s, a.value)) && SoundOk(ViewOf(s, a.value))
    requires a.Some? && (step.Dequeue? || step.DrainNext?) ==> a.value in s.accepted && a.value !in s.finished
    ensures forall k :: k in CommandsTouched(s, step) ==> s.freed[CmdObj(k)] == 0
  {
    TouchedByActor(s, step);
    if a.Some? && a.value in CommandsTouched(s, step) { CommandSafe(s, step, a.value); }
  }

  lemma SoundIsSafe(s: State, step: Step, a: Option<CallId>)
    requires Enabled(s, step) && a == Actor(s, step) && !step.Begin?
    requires a.Some? ==> a.value in s.calls && ViewOk(ViewOf(s, a.value)) && SoundOk(ViewOf(s, a.value))
    requires a.Some? && (step.Dequeue? || step.DrainNext?) ==> a.value in s.accepted && a.value !in s.finished
    ensures !Dangles(s, step)
  {
    ContextsSafe(s, step, a);
    CommandsSafe(s, step, a);
  }

  /** As long as no lock call is interrupted, whatever step can be taken next, the thread touches only contexts
      whose caller is still inside the call, and nobody touches a command object that has been freed. */
  lemma NoDanglingAccess(steps: seq<Step>, step: Step)
    requires Exec(steps).Some? && Uninterrupted(steps) && Enabled(Exec(steps).value, step)
    ensures !Dangles(Exec(steps).value, step)
  {
    RunKeepsBase(steps);
    RunKeepsSound(steps);
    var s := Exec(steps).value;
    if !step.Begin? {
      ActorKnown(s, step);
      SoundIsSafe(s, step, Actor(s, step));
    }
  }

  /** Commands leave the queue for good in the order of acceptance, whatever is pushed back, and handlers
      run in that order; nothing is lost or duplicated on the way. */
  lemma AcceptanceOrder(steps: seq<Step>)
    requires Exec(steps).Some?
    ensures var s := Exec(steps).value;
      && s.accepted == s.finished + (if s.thread.Busy? then [s.thread.k] else []) + s.queue
      && NoDup(s.accepted)
      && InOrder(s.ran, s.accepted)
  {
    RunKeepsBase(steps);
  }

  /** Every command that was rejected or that the thread is done with has been freed exactly once, together
      with the extra buffer it owned; every other command and buffer is still allocated or, for the extra
      buffer of the command in hand, has been freed once by its handler. */
  lemma FreedExactlyOnce(steps: seq<Step>, k: CallId)
    requires Exec(steps).Some? && k in Exec(steps).value.calls
    ensures var s := Exec(steps).value;
      var code := s.calls[k].req.code;
      var done := (s.calls[k].pc.Returned? && !s.calls[k].pc.accepted) || k in s.finished;
      && s.freed[CmdObj(k)] == (if done then 1 else 0)
      && s.freed[Extra(k)] <= 1
      && (done ==> s.freed[Extra(k)] == if code.DrvExtra? && code.ownsBuf then 1 else 0)
      && (k in s.queue ==> s.freed[Extra(k)] == 0)
  {
    RunKeepsBase(steps);
    var s := Exec(steps).value;
    assert ViewOk(ViewOf(s, k));
    if k in s.queue { QueuedIsUnfreed(s, k); }
  }

  /** The response buffer of a finished command goes to the waiter's context or to the free hook, never to both;
      it goes to one of them exactly if the command succeeded with a waiter attached, or no waiter was attached
      and there is a hook.  As long as no lock call is interrupted, a caller that returned has the buffer
      exactly when it was handed over. */
  lemma ResponseGoesOneWay(steps: seq<Step>, k: CallId)
    requires Exec(steps).Some? && k in Exec(steps).value.finished
    ensures k in Exec(steps).value.calls
    ensures var s := Exec(steps).value;
      var c := s.calls[k];
      && (c.cmd.rspBuf ==>
            (s.delivered[k] + s.freed[Rsp(k)] == 1 <==>
              if c.answered.FoundAttached? then c.cmd.res.Success? else c.req.hasRspFree))
      && s.delivered[k] + s.freed[Rsp(k)] <= 1
      && (Uninterrupted(steps) && c.pc.Returned? ==> (c.pc.gotRsp <==> s.delivered[k] == 1))
  {
    RunKeepsBase(steps);
    var s := Exec(steps).value;
    assert s.accepted[..|s.finished|] == s.finished;
    assert k in s.accepted;
    assert ViewOk(ViewOf(s, k));
    if Uninterrupted(steps) { RunKeepsSound(steps); }
  }

  lemma QueuedIsUnfreed(s: State, k: CallId)
    requires Base(s) && k in s.queue
    ensures k in s.calls && s.freed[CmdObj(k)] == 0 && s.freed[Extra(k)] == 0
  {
    var l := LineOf(s);
    assert k in s.accepted && k !in l.finished && k !in l.held by {
      var i :| 0 <= i < |s.queue| && s.queue[i] == k;
      assert s.accepted[|l.finished| + |l.held| + i] == k;
      assert l.held != [] ==> s.accepted[|l.finished|] == l.held[0];
      assert forall j :: 0 <= j < |s.finished| ==> s.accepted[j] == s.finished[j];
    }
    assert ViewOk(ViewOf(s, k));
  }

  /** When the thread has exited, the commands accepted before the end of its drain loop are all freed, and
      exactly the later ones are left in the queue, unfreed: only a thread started anew would take them. */
  lemma LateCommandsLeak(steps: seq<Step>)
    requires Exec(steps).Some? && Exec(steps).value.thread.Exited?
    ensures var s := Exec(steps).value;
      && s.exitMark <= |s.accepted|
      && s.finished == s.accepted[..s.exitMark]
      && s.queue == s.accepted[s.exitMark..]
      && (forall k :: k in s.queue ==> s.freed[CmdObj(k)] == 0)
  {
    RunKeepsBase(steps);
    var s := Exec(steps).value;
    forall k | k in s.queue ensures s.freed[CmdObj(k)] == 0 {
      QueuedIsUnfreed(s, k);
    }
  }

  lemma ExecAppend(steps: seq<Step>, step: Step, s: State)
    requires Exec(steps) == Some(s) && Enabled(s, step)
    ensures Exec(steps + [step]) == Some(Next(s, step))
  {
  }

  // Such a run exists: the caller passes the filter, the thread stops and drains, then the caller enqueues.
  lemma LateCommandExample() returns (steps: seq<Step>)
    ensures Exec(steps).Some? && Exec(steps).value.thread.Exited? && Exec(steps).value.queue == [7]
  {
    var s;
    steps, s := DrainedRun(Request(0, Plain, false, true, false));
    ExecAppend(steps, Enqueue(7), s);
    steps := steps + [Enqueue(7)];
  }

  lemma DrainedRun(req: Request) returns (steps: seq<Step>, s: State)
    ensures Exec(steps) == Some(s) && s.thread.Exited? && s.queue == []
    ensures 7 in s.calls && s.calls[7].pc.Admitted?
  {
    steps, s := [], Init;
    ExecAppend(steps, Begin(7, req), s); steps, s := steps + [Begin(7, req)], Next(s, Begin(7, req));
    ExecAppend(steps, Filter(7, true), s); steps, s := steps + [Filter(7, true)], Next(s, Filter(7, true));
    ExecAppend(steps, Awake(false, false), s); steps, s := steps + [Awake(false, false)], Next(s, Awake(false, false));
    ExecAppend(steps, StopRunning, s); steps, s := steps + [StopRunning], Next(s, StopRunning);
    ExecAppend(steps, DrainNext, s); steps, s := steps + [DrainNext], Next(s, DrainNext);
  }
}
