# Verified models of the RTL88x2CU driver core and the telemetry sender

Dafny models of the parts of this repository whose correctness depends on whole runs rather than on one
function: the wireless driver's command thread, regulatory engine, beacon maintenance, bridge database and
beamforming sounding machine, and the Python telemetry loop.  `dafny verify dfyconfig.toml` checks all of it.

| component | modules |
|---|---|
| command queue and submit-context handshake | `CmdThread`, `CmdStatus`, `CmdInterrupt` |
| regulatory requests, country records, selection, channel set, beacon hints | `RegdTypes`, `RegdRequests`, `CountrySelect`, `RegdSelect`, `RegdEngine`, `RegdOutcome`, `ChannelSet`, `RegdChannels` |
| access point beacon | `BeaconIe`, `BeaconCsa`, `TimElement`, `StationCounters` |
| NAT2.5 bridge | `Nat25Db`, `DhcpChecksum` |
| Supported Channels element | `SupportedChannels` |
| beamforming sounding | `SoundingSpec`, `SoundingOutcomes`, `Sounding` |
| telemetry loop | `Telemetry` |
| shared | `Basics` |

State that the source updates in place is a class with the same fields and loops; each method is tied to a
function of the old state, or to the property itself, and what the source promises is proved about that.  The
command thread is a step system, because its properties are about interleavings.

## What turned out differently from what the code seems to promise

Each of these is kept as the code has it, with the exact condition proved.

- `rtw_set_tim_ie` returns its length in a `u8`: with a partial bitmap of 251 octets it returns 0
  (`TimElement.ReturnedLength`).
- `rtw_add_bcn_ie` does nothing, silently, when the element before the insertion point is missing or empty
  (`BeaconIe.AddFailsSilently`).  A channel switch over such a beacon counts down and never switches
  (`BeaconCsa.SwitchesIff`).
- `dhcp_flag_bcast` adds the whole new flags word to the checksum: right if and only if the old flags were zero
  (`DhcpChecksum.PatchVerifies`), and a request sent without a checksum leaves with one
  (`DhcpChecksum.PatchAddsChecksum`).
- `sctx_mutex` is taken with `mutex_lock_interruptible`, and its result is ignored everywhere
  (include/osdep_service_linux.h, lines 331-342 and 363).  A lock call that returns `-EINTR` goes on without the mutex
  and then unlocks it, which takes it from its holder.  The handshake is safe in every run without such an
  interruption (`CmdThread.NoDanglingAccess`), and any interruption, of a caller or of the thread, at any time, can be
  continued without another one to an access to the context of a caller that has returned, and to a write to a freed
  command (`CmdInterrupt.DanglesIffInterrupted`, `CmdInterrupt.InterruptionDangles`,
  `CmdInterrupt.InterruptionCorrupts`).  The call that suffers need not be the one whose lock call was interrupted.
- A command that passes the filter before the shutdown drain and enters the queue after it is left there, unfreed;
  only a thread that is started anew takes it (`CmdThread.LateCommandsLeak`, `CmdThread.LateCommandExample`).
- A response buffer of a command that failed while its waiter was attached goes nowhere
  (`CmdThread.ResponseGoesOneWay`).
- A user's country request goes into the list without being applied when nothing else is configured and it switches
  country elements on or off while no record has a country, or comes with a change of the intersection flag that
  leaves the plans wanted the same (`RegdEngine.RfCtl.PrehdlUserRequest`, `RegdEngine.UserRequestDropped`).
- With the two passive switches different, the channel set accepts channels that a plan in it rejects
  (`ChannelSet.SetThenPlan`, `ChannelSet.MixedSwitchesDiffer`).
- The reset of `num_sta_no_ht` after the access point's own scan is exact if and only if no station carries the flag
  (`StationCounters.Ap.ResetNoHt`, `StationCounters.NoHtDrift`); a later leave takes the counter below zero
  (`StationCounters.ResetThenLeave`).
- The Barker preamble bit of the ERP element is rewritten only with the first and the last non-ERP station, so it is
  right exactly if there are stations without short preamble now just as there were then
  (`StationCounters.BarkerRightIff`, `StationCounters.BarkerMissed`).
- With the MAC of the shortcut, a transmission refreshes the entry that the shortcut refers to, whatever the frame's own
  source address is (`Nat25Db.TransmissionRefreshes`).
- Two IPX addresses of different kinds can share one database address (`Nat25Db.GenerateCollides`).

## Model

| member | source | states |
|---|---|---|
| `CmdThread.StepKeepsBase` | drivers/rtl88x2CU/core/rtw_cmd.c:491-707 | every step of a caller or of the command thread, interrupted lock calls and a restart of the thread included, keeps the invariant that ties each command, its context, buffers, status and queue position together |
| `CmdThread.StepKeepsSound` | drivers/rtl88x2CU/core/rtw_cmd.c:629-653 | every step but an interrupted lock call keeps everybody between lock and unlock in possession of the mutex, and the context in place as long as the thread uses it |
| `CmdThread.RunKeepsBase` | drivers/rtl88x2CU/core/rtw_cmd.c:414-452 | the first invariant holds after every interleaving of callers and thread, including timeouts, push-backs, drops, the shutdown drain, restarts and interruptions |
| `CmdThread.RunKeepsSound` | drivers/rtl88x2CU/core/rtw_cmd.c:917-925 | the second holds after every interleaving without an interrupted lock call |
| `CmdThread.NoDanglingAccess` | drivers/rtl88x2CU/core/rtw_cmd.c:619-700 | in every run without an interrupted lock call, whatever step comes next, the thread uses a context only through a pointer that is set and only while its caller has not returned, and nobody touches a freed command object |
| `CmdThread.AcceptanceOrder` | drivers/rtl88x2CU/core/rtw_cmd.c:215-274 | in every run the accepted commands are exactly those finished, then the one in hand, then the queue, in acceptance order and without duplicates, although a command can be pushed back to the head; handlers run in that order |
| `CmdThread.FreedExactlyOnce` | drivers/rtl88x2CU/core/rtw_cmd.c:464-489 | in every run a rejected or finished command has been freed exactly once, together with the buffer of a driver-extra command that owns one, any other command not at all; no extra buffer is freed twice |
| `CmdThread.ResponseGoesOneWay` | drivers/rtl88x2CU/core/rtw_cmd.c:631-657 | in every run a response buffer goes to the context or to the free hook, never to both; it goes to one of them exactly if the command succeeded with a waiter attached, or no waiter was attached and there is a hook; without an interruption a returned caller has it exactly if it was delivered |
| `CmdThread.LateCommandsLeak` | drivers/rtl88x2CU/core/rtw_cmd.c:672-707 | whenever the thread has exited, the commands accepted before the end of its drain are all freed, and exactly the later ones are in the queue, unfreed |
| `CmdThread.LateCommandExample` | drivers/rtl88x2CU/core/rtw_cmd.c:414-452 | a run in which a command is accepted after the drain |
| `CmdStatus.RunTold` | drivers/rtl88x2CU/core/rtw_cmd.c:491-707 | after every run the status, result, response and position of each call say which steps were taken on it: admission, drain, passing or failing the filter on the way out, handler runs, responses made, wake-ups and detachments |
| `CmdStatus.StatusTells` | drivers/rtl88x2CU/core/rtw_cmd.c:629-641 | in every run a completed context has status success exactly if the handler of its command ran and succeeded, dropped exactly if the drain loop took the command, and command error in all other cases |
| `CmdStatus.CompletedIff` | drivers/rtl88x2CU/core/rtw_cmd.c:629-653 | without interrupted lock calls, the contexts completed by the time their command is freed are exactly those of the waiting calls that did not detach |
| `CmdStatus.ReturnTells` | drivers/rtl88x2CU/core/rtw_chplan.c:3379-3391 | a call woken by the completion returns with a final status, which is success exactly if its handler succeeded and dropped exactly if it was drained; without interruptions a waiting call returns with SUBMITTED exactly if it detached |
| `CmdStatus.HandledIff` | drivers/rtl88x2CU/core/rtw_cmd.c:560-617 | a call is accepted only if it passed the filter on the way in, and rejected only if it did not; a finished command was drained, or had no handler, or was stopped by the filter on the way out, or passed it awake or without I/O, and its handler ran once exactly in the last case |
| `CmdStatus.ResponseTells` | drivers/rtl88x2CU/core/rtw_cmd.c:619-650 | a response is handed over exactly if the callback made one, the handler succeeded and the context was attached; it goes to the free hook exactly if the callback made one, the context was detached and there is a hook |
| `CmdStatus.StopsIffTold` | drivers/rtl88x2CU/core/rtw_cmd.c:516-547 | in every run the thread is on its way out or gone exactly if since its last start the semaphore failed or the driver was stopped when the thread looked; cmdthd_running is cleared only after that |
| `CmdInterrupt.RunKeepsHolders` | drivers/rtl88x2CU/core/rtw_cmd.c:917-925 | in every run, whoever holds a mutex is between its lock and unlock calls |
| `CmdInterrupt.Reach` | drivers/rtl88x2CU/core/rtw_cmd.c:491-707 | from every state in which a call has lost the mutex the thread can come, without an interruption, to complete that call's context; the way there ends because a rank falls |
| `CmdInterrupt.InterruptionDangles` | drivers/rtl88x2CU/core/rtw_cmd.c:629-653 | every interrupted lock call, in every run, can be continued without another until the thread is about to complete the context of a caller that has returned, whose own lock call succeeded |
| `CmdInterrupt.InterruptionCorrupts` | drivers/rtl88x2CU/core/rtw_chplan.c:3381-3386 | it can also be continued until a caller is about to clear the pointer in a command that the thread has freed |
| `CmdInterrupt.DanglesIffInterrupted` | drivers/rtl88x2CU/core/rtw_cmd.c:917-925 | after a run without interruptions, a step opens the way to a dangling access if and only if it is an interrupted lock call |
| `CmdInterrupt.OwnContextDangles` | drivers/rtl88x2CU/core/rtw_cmd.c:917-925 | a caller interrupted while the thread is between testing and completing that caller's own context can return before the thread completes it |
| `CmdInterrupt.InterruptionExample` | drivers/rtl88x2CU/core/rtw_cmd.c:629-653 | a run that leads to such an interruption |
| `RegdRequests.RequestList.Insert` | drivers/rtl88x2CU/core/rtw_chplan.c:1577-1581 | appends the request; the counter stays the length of the list |
| `RegdRequests.RequestList.ClearRefCnt` | drivers/rtl88x2CU/core/rtw_chplan.c:2213-2226 | clears the reference counts of the country requests and changes nothing else |
| `RegdRequests.RequestList.AddCountryIeReq` | drivers/rtl88x2CU/core/rtw_chplan.c:2248-2279 | the counts become those of one more record of the plan; reports an insertion exactly if the plan had no request; other requests untouched |
| `RegdRequests.RequestList.Sweep` | drivers/rtl88x2CU/core/rtw_chplan.c:2228-2246 | removes exactly the unreferenced country requests in place, keeping the order, and reports whether there were any |
| `RegdRequests.RequestList.AddAll` | drivers/rtl88x2CU/core/rtw_chplan.c:2461-2472 | adding every record gives counts equal to the bag of plans; reports a change exactly if the set of country requests grew |
| `RegdRequests.RequestList.Reconcile` | drivers/rtl88x2CU/core/rtw_chplan.c:2535-2548 | after mark, add and sweep the country requests are duplicate-free and exactly the given plans, each with its number of records; other requests untouched; a change is reported exactly if the set of country requests changed |
| `RegdRequests.AddedCounts` | drivers/rtl88x2CU/core/rtw_chplan.c:2248-2279 | the counts of a bag become the counts of the bag with one more plan, whether a request is found or appended |
| `RegdRequests.SweptMirrors` | drivers/rtl88x2CU/core/rtw_chplan.c:2228-2246 | sweeping a list with the counts of a bag leaves exactly the plans of the bag, each once and with its count |
| `RegdRequests.SweptOthers` | drivers/rtl88x2CU/core/rtw_chplan.c:2228-2246 | the sweep keeps the requests of other initiators and their order |
| `RegdRequests.ChangeIs` | drivers/rtl88x2CU/core/rtw_chplan.c:2535-2548 | insertions or deletions happened if and only if the set of country requests is different from before |
| `CountrySelect.RecordOfIsWf` | drivers/rtl88x2CU/core/rtw_chplan.c:1256-1333 | the plan of a record is a function of its country code and status, on all four outcomes |
| `CountrySelect.RecordOfIs` | drivers/rtl88x2CU/core/rtw_chplan.c:1256-1333 | what each kind of country element is recorded as, and with which plan: none, unknown, without the operating channel, applicable |
| `CountrySelect.WfIsConsistent` | drivers/rtl88x2CU/core/rtw_chplan.c:1269-1283 | a record has the all-zero plan exactly if it has no country |
| `CountrySelect.Select` | drivers/rtl88x2CU/core/rtw_chplan.c:2341-2365 | the scan finds the first record of the preferred code among the best, else the first best one, or none if no record has a country |
| `CountrySelect.PickIs` | drivers/rtl88x2CU/core/rtw_chplan.c:2335-2365 | the pick is unique, has the highest score, and keeps the current code whenever a record of that status and code is among the best |
| `CountrySelect.PickAgain` | drivers/rtl88x2CU/core/rtw_chplan.c:2367-2380 | choosing again with the same records gives the same code, status and plan, so no change is reported |
| `CountrySelect.PickOfIs` | drivers/rtl88x2CU/core/rtw_chplan.c:2341-2380 | what the scan finds is the one record that the records and the one in effect determine |
| `RegdSelect.HighestSrc` | drivers/rtl88x2CU/core/rtw_chplan.c:2659-2667 | the highest source that a request has |
| `RegdSelect.HighestInr` | drivers/rtl88x2CU/core/rtw_chplan.c:2669-2679 | the highest initiator among the requests of that source |
| `RegdSelect.MarkAndMerge` | drivers/rtl88x2CU/core/rtw_chplan.c:2681-2727 | each request is marked exactly if it applies, and the merged status summarises the marked ones |
| `RegdSelect.Select` | drivers/rtl88x2CU/core/rtw_chplan.c:2651-2732 | marks and summary are right: common country code or "98", common domain or unspecified, intersection of the protocols, set of the initiators, the one source; with any request at least one applies |
| `RegdSelect.OrderIrrelevant` | drivers/rtl88x2CU/core/rtw_chplan.c:2651-2732 | two lists with the same requests in any order get the same mark on each request and the same summary; the applied requests share one source |
| `RegdSelect.SummaryUnique` | drivers/rtl88x2CU/core/rtw_chplan.c:1726-1740 | the summary is determined by the set of applied requests |
| `RegdSelect.Strictest` | drivers/rtl88x2CU/core/rtw_chplan.c:622-629 | an upper bound of both modes that is one of them; modes out of range count as none |
| `RegdSelect.EdccaModes` | drivers/rtl88x2CU/core/rtw_chplan.c:631-687 | per band, the strictest mode that an applied request asks for, by its override for that band or else by the table, or none |
| `RegdSelect.StrictestUnique` | drivers/rtl88x2CU/core/rtw_chplan.c:631-687 | the strictest mode is the same for every order of the list |
| `RegdEngine.SamePlans` | drivers/rtl88x2CU/core/rtw_chplan.c:2318-2327 | records that changed in everything but their plans ask for the same requests, which makes the early exit sound |
| `RegdEngine.RfCtl.UpdatePerLinkCisr` | drivers/rtl88x2CU/core/rtw_chplan.c:2281-2333 | the records of the links are replaced; "no change" is reported only if no record changed or, under intersection, no plan did |
| `RegdEngine.RfCtl.SelectEffected` | drivers/rtl88x2CU/core/rtw_chplan.c:2341-2380 | a best record takes effect, or none if there is none; a change is reported exactly if the plan in effect changed |
| `RegdEngine.RfCtl.UpdateEffected` | drivers/rtl88x2CU/core/rtw_chplan.c:2435-2459 | the record in effect is right for the mode, and without a reported change the target is the old one |
| `RegdEngine.RfCtl.FollowRecords` | drivers/rtl88x2CU/core/rtw_chplan.c:2521-2553 | whichever exit is taken, the country requests equal the target (all recorded countries, the one in effect, or none) with its counts, and a change is reported exactly if their set changed |
| `RegdEngine.RfCtl.CountryIe` | drivers/rtl88x2CU/core/rtw_chplan.c:2500-2553 | the same for a received country element, through both early exits |
| `RegdEngine.RfCtl.PrehdlUser` | drivers/rtl88x2CU/core/rtw_chplan.c:2149-2185 | at most one user request, whose plan becomes the one asked for; mode and flags change as asked; the country requests stay |
| `RegdEngine.RfCtl.PrehdlUserRequest` | drivers/rtl88x2CU/core/rtw_chplan.c:2556-2600 | the target is followed through every user request; and a changed user plan is not acted upon if and only if, as the request and the old state tell: nothing else is configured and either the intersection flag changes and the wanted plans do not, or it does not, country elements are switched on or off, and no record has a country |
| `RegdEngine.FlipChanges` | drivers/rtl88x2CU/core/rtw_chplan.c:2435-2459 | switching country elements on or off changes the wanted plans unless no record has a country |
| `RegdEngine.RfCtl.Choose` | drivers/rtl88x2CU/core/rtw_chplan.c:2651-2732 | only marks change, and marks and summary are those of the list |
| `RegdEngine.RfCtl.SetUser` | drivers/rtl88x2CU/core/rtw_chplan.c:2734-2755 | a user request keeps the invariant; user plan, mode and intersection flag become those asked for; it is acted upon exactly if it asks for something and either neither sets the intersection flag nor switches country elements, or changes other configuration, or a country request came or went; then marks and summary are brought up to date; a new plan is not acted upon exactly if that could be told before |
| `RegdEngine.RfCtl.SetCountryIe` | drivers/rtl88x2CU/core/rtw_chplan.c:2734-2755 | a country element keeps the invariant, changes exactly the records of its links, and is acted upon exactly if the set of country requests changed |
| `RegdEngine.Run` | drivers/rtl88x2CU/core/rtw_chplan.c:2556-2649 | after every run of user requests and country elements, from the elements as received: records, user plan, mode and flag are those that the events ask for, and the country requests follow the records in the way that the mode asks for, written out for each mode; list length counted, one initial and at most one user request |
| `RegdEngine.RfCtl.ValidFollows` | drivers/rtl88x2CU/core/rtw_chplan.c:1743-1755 | in terms of the mode: no country request in mode DISABLE, or in ENABLE_WW with a country that is not world wide; otherwise, under intersection, a request for exactly the plans of the records with a country, counting them, and without it one request for a record of first choice, none exactly if no record has a country |
| `RegdEngine.AskedLast` | drivers/rtl88x2CU/core/rtw_chplan.c:2149-2185 | plan, mode and flag are those of the last accepted user request that said one |
| `RegdEngine.HeardLast` | drivers/rtl88x2CU/core/rtw_chplan.c:2281-2333 | the record of a link is that of the last country element that reached it |
| `RegdEngine.NotAsked` | drivers/rtl88x2CU/core/rtw_chplan.c:2149-2185 | without such an event it is as before |
| `RegdEngine.UserRequestDropped` | drivers/rtl88x2CU/core/rtw_chplan.c:2576-2597 | for every plan that is not world wide: a state in which the user's request enters the list and has no effect |
| `RegdOutcome.WhoApplies` | drivers/rtl88x2CU/core/rtw_chplan.c:2669-2727 | country requests apply; the user's applies without them, or always; the initial one without any other, or always |
| `RegdOutcome.StatusIs` | drivers/rtl88x2CU/core/rtw_chplan.c:1726-1740 | the status shows the plan of the country requests if they agree, else of the user, else the initial one |
| `RegdOutcome.IntersectedStatus` | drivers/rtl88x2CU/core/rtw_chplan.c:1726-1740 | country requests of different plans give the code "98", an unspecified domain if the domains differ, and protocols that all allow |
| `RegdOutcome.ShownCountry` | drivers/rtl88x2CU/core/rtw_chplan.c:2734-2755 | from the records to the status: a driver that follows one country and has acted shows the plan of a record of first choice, or else that of the user or the initial one |
| `ChannelSet.RestrictedHasFlags` | drivers/rtl88x2CU/core/rtw_chplan.c:198-248 | one more plan turns the flags of a set of plans into those of the larger set |
| `ChannelSet.FlagsUnique` | drivers/rtl88x2CU/core/rtw_chplan.c:250-285 | the flags of a channel do not depend on the order or repetition of the plans |
| `ChannelSet.DisabledIff` | drivers/rtl88x2CU/core/rtw_chplan.c:198-312 | a channel is disabled exactly if it is a 5 GHz channel without 11a, is excluded before the first zero, or a valid plan lacks it or flags it with a disabling flag |
| `ChannelSet.SetThenPlan` | drivers/rtl88x2CU/core/rtw_chplan.c:143-190 | what the set accepts, a plan in it accepts too if and only if the passive switches are equal or the primary channel is not passive by that plan |
| `ChannelSet.PlansThenSet` | drivers/rtl88x2CU/core/rtw_chset.c:169-214 | the set accepts what it offers and all plans accept, for all switches |
| `ChannelSet.CachedAgrees` | drivers/rtl88x2CU/core/rtw_chset.c:169-214 | with equal passive switches and no hint in effect the set accepts a channel and width if and only if every valid applied plan does, it is in the set and not barred, and the bandwidth flags allow it |
| `ChannelSet.MixedSwitchesDiffer` | drivers/rtl88x2CU/core/rtw_chset.c:190-196 | for both unequal settings, a channel that the set accepts and its only plan rejects |
| `ChannelSet.NarrowerToo` | drivers/rtl88x2CU/core/rtw_chset.c:169-214 | what the set accepts for a width it accepts for every narrower one on each even-aligned part |
| `ChannelSet.WidthBarred` | drivers/rtl88x2CU/core/rtw_chset.c:190-211 | which widths and places a flag on a sub-channel rules out |
| `ChannelSet.IsExcl` | drivers/rtl88x2CU/core/rtw_chplan.c:106-117 | whether the channel is in the excluded list before its first zero |
| `ChannelSet.SearchBch` | drivers/rtl88x2CU/core/rtw_chset.c:132-146 | the first (enabled) entry of the channel, or -1 exactly if there is none |
| `ChannelSet.PlanIsBchbwValid` | drivers/rtl88x2CU/core/rtw_chplan.c:143-190 | for any channel tables: accepts exactly if the combination exists, has sub-channels, and each is usable, not excluded, and active or allowed to be passive |
| `ChannelSet.SetIsBchbwValid` | drivers/rtl88x2CU/core/rtw_chset.c:169-214 | for any channel tables: accepts exactly if the combination exists, has sub-channels, and each has an enabled entry whose flags allow activity and width |
| `ChannelSet.Chset.ResetFlags` | drivers/rtl88x2CU/core/rtw_chplan.c:295-312 | exactly the barred channels start disabled, the others without flags |
| `ChannelSet.Chset.ApplyPlan` | drivers/rtl88x2CU/core/rtw_chplan.c:198-248 | every channel gets the restriction of the plan; nothing else changes |
| `ChannelSet.Chset.ApplyPlans` | drivers/rtl88x2CU/core/rtw_chplan.c:250-285 | every channel ends up exactly disabled, or with the union of the valid plans' flags |
| `ChannelSet.Chset.NoteAndLift` | drivers/rtl88x2CU/core/rtw_chplan.c:316-337 | the regulatory "no IR" is noted, live hints lift it where allowed, and the enabled channels are counted |
| `ChannelSet.Chset.ApplyRegulatory` | drivers/rtl88x2CU/core/rtw_chplan.c:287-343 | flags as the plans leave them, and a channel is lifted exactly if its hint is live and the country and the channel allow it |
| `ChannelSet.Chset.ProcessBeaconHint` | drivers/rtl88x2CU/core/rtw_chplan.c:370-398 | exactly the enabled entry of the channel gets a new hint end, never the value that means stopped, and is lifted exactly if it is passive and the country and the channel allow it; counts an activation exactly if a channel was lifted |
| `ChannelSet.HintedOk` | drivers/rtl88x2CU/core/rtw_chplan.c:370-398 | a hint keeps the flags of the plans and the channel invariant |
| `ChannelSet.HintLasts` | drivers/rtl88x2CU/core/rtw_chplan.c:370-398 | a hint is live for exactly the ticks it was given, and one more when it would have ended at zero |
| `ChannelSet.HintLifts` | drivers/rtl88x2CU/core/rtw_chplan.c:350-369 | a beacon lifts a passive channel exactly for the world wide, unspecified and intersected codes, outside radar channels and the 2.4 GHz channels up to 11 |
| `ChannelSet.Chset.Expire` | drivers/rtl88x2CU/core/rtw_chplan.c:416-453 | an idle pass stops exactly the hints that were not live when the clock was read for their channel and makes those channels passive again; any other pass changes nothing; reports exactly if a channel became passive |
| `ChannelSet.ExpiredOk` | drivers/rtl88x2CU/core/rtw_chplan.c:437-449 | expiry restores the flags of the plans and keeps the channel invariant |
| `ChannelSet.UnliftedReflects` | drivers/rtl88x2CU/core/rtw_chplan.c:437-449 | a set in which nothing is lifted is exactly what the plans leave, so that the agreement of set and plans applies |
| `ChannelSet.Run` | drivers/rtl88x2CU/core/rtw_chplan.c:287-453 | after every run of regulatory changes, hints and expiry passes the plans and limits in force are those applied last and every channel has what they leave it, hints apart; "no IR" only by regulation; lifted channels are neither radar channels nor 2.4 GHz channels up to 11; after an idle pass a channel that had no hint at the start is lifted only if a beacon was heard on it within the ticks of a hint |
| `ChannelSet.Perform` | drivers/rtl88x2CU/core/rtw_chplan.c:287-453 | what one event does to the plans and limits in force and to the hint of every channel |
| `RegdChannels.AppliedDomainsIs` | drivers/rtl88x2CU/core/rtw_chplan.c:250-285 | the domain codes put into the set are those of the applied requests |
| `RegdChannels.SameChannels` | drivers/rtl88x2CU/core/rtw_chplan.c:2734-2755 | two request lists with the same requests, in any order, lead to the same flags on every channel |
| `TimElement.Span` | drivers/rtl88x2CU/core/rtw_ap.c:56-73 | the two scans find the offset and the length of the partial bitmap |
| `TimElement.SetTimIe` | drivers/rtl88x2CU/core/rtw_ap.c:49-86 | writes exactly the element and nothing behind it; returns its length modulo 256 |
| `TimElement.TimRoundTrip` | drivers/rtl88x2CU/core/rtw_ap.c:49-86 | a receiver decodes id, counts, offset, group-traffic bit and partial bitmap back to the whole bitmap; the length octet matches |
| `TimElement.SentIsShortest` | drivers/rtl88x2CU/core/rtw_ap.c:56-73 | no shorter even-aligned part of the bitmap could be sent |
| `TimElement.ReturnedLength` | drivers/rtl88x2CU/core/rtw_ap.c:74-86 | for bitmaps up to 251 octets the returned length is the number of octets written if and only if the partial bitmap is not the full 251 octets |
| `BeaconIe.Find` | drivers/rtl88x2CU/core/rtw_ieee80211.c:360-384 | the first element with the id, or the end |
| `BeaconIe.Bss.GetIe` | drivers/rtl88x2CU/core/rtw_ieee80211.c:360-384 | on the bytes: the position and length of the first element with the id, or nothing exactly if there is none |
| `BeaconIe.Bss.Scan` | drivers/rtl88x2CU/core/rtw_ap.c:176-193 | on the bytes: where the scan stops, whether it matches, and the element to anchor to |
| `BeaconIe.Bss.AddBcnIe` | drivers/rtl88x2CU/core/rtw_ap.c:168-234 | the bytes after the splice encode the list with the element replaced or inserted, or the old list without an anchor; the fixed fields stay |
| `BeaconIe.Bss.RemoveBcnIe` | drivers/rtl88x2CU/core/rtw_ap.c:236-271 | the bytes encode the list without the first element of that id; the fixed fields stay |
| `BeaconIe.AddKeepsSorted` | drivers/rtl88x2CU/core/rtw_ap.c:168-234 | on a sorted list an addition that takes effect replaces or inserts exactly one element, keeps all others in order and keeps the list sorted |
| `BeaconIe.AddFailsSilently` | drivers/rtl88x2CU/core/rtw_ap.c:195-207 | an addition leaves the list unchanged if and only if there is no element, or an empty one, to anchor it to |
| `BeaconIe.AddThenRemove` | drivers/rtl88x2CU/core/rtw_ap.c:168-271 | adding an absent element and removing it restores the list and hence the bytes |
| `BeaconCsa.Ap.UpdateElement` | drivers/rtl88x2CU/core/rtw_ap.c:3379-3486 | on the bytes: the element is counted, added or removed as the list function says, with the same two results |
| `BeaconCsa.Ap.ProcessCsa` | drivers/rtl88x2CU/core/rtw_ap.c:3341-3377 | at count zero stops the beacon and orders the change to the new channel, or the join of the linking station, and ends the switch, each case written out; nothing otherwise |
| `BeaconCsa.Ap.UpdateBeacon` | drivers/rtl88x2CU/core/rtw_ap.c:3567-3587 | one update of beacon bytes, count and state |
| `BeaconCsa.UpdateCut` | drivers/rtl88x2CU/core/rtw_ap.c:3567-3587 | one update turns the beacon that announces one count into the beacon that announces the next |
| `BeaconCsa.AnnouncedIs` | drivers/rtl88x2CU/core/rtw_ap.c:3379-3486 | the announcing beacon is sorted, has each announcement exactly if it could be added, with the count, and gives back the beacon when they are removed |
| `BeaconCsa.Countdown` | drivers/rtl88x2CU/core/rtw_ap.c:3567-3587 | for every sorted beacon, count n and kind of switch: updates 1 to n announce n down to 1, update n + 1 restores the beacon and gives the orders once, later ones change nothing; or, with neither element anchored or a count of zero, nothing is ever ordered |
| `BeaconCsa.ChangesOnce` | drivers/rtl88x2CU/core/rtw_ap.c:3357-3364 | after i updates exactly one change of the channel has been ordered, to the announced channel and behind the stop of the beacon, if i is above a count that is not zero and an announcement could be added; otherwise nothing was ordered |
| `BeaconCsa.JoinsInstead` | drivers/rtl88x2CU/core/rtw_ap.c:3365-3376 | a switch for a joining station orders the join instead, exactly if a station still wants to, and never changes the channel itself |
| `BeaconCsa.SwitchesIff` | drivers/rtl88x2CU/core/rtw_ap.c:3341-3427 | a change to the announced channel is ordered at some time if and only if the count is not zero and one of the announcements can be added |
| `BeaconCsa.Tick` | drivers/rtl88x2CU/core/rtw_ap.c:3567-3587 | on the bytes: one update takes the buffer and the state from those after i updates of a switch to those after i + 1 |
| `BeaconCsa.RunSwitch` | drivers/rtl88x2CU/core/rtw_ap.c:3567-3587 | on the bytes: after more than n updates the buffer is what it was, and exactly the stop of the beacon and the change to the new channel were ordered, in this order, or nothing was |
| `StationCounters.Ap.Join` | drivers/rtl88x2CU/core/rtw_ap.c:3822-4016 | flags as announced, counters in step with them, operation mode rewritten from stations and counter |
| `StationCounters.Ap.Leave` | drivers/rtl88x2CU/core/rtw_ap.c:4018-4111 | the station is gone, counters in step, operation mode rewritten from stations and counter |
| `StationCounters.Ap.CoexReport` | drivers/rtl88x2CU/core/rtw_ap.c:3623-3677 | raises the intolerance flag once, counters in step, operation mode unaffected |
| `StationCounters.Ap.SetNonErp` | drivers/rtl88x2CU/core/rtw_ap.c:3872-3896 | the ERP bits follow the first and the last non-ERP station, although the element is rewritten from a test for exactly one |
| `StationCounters.Ap.UpdateErpInfo` | drivers/rtl88x2CU/core/rtw_ap.c:3127-3159 | the element from the counters, as the driver tests them |
| `StationCounters.Ap.HtOperationUpdate` | drivers/rtl88x2CU/core/rtw_ap.c:3720-3789 | the mode from the counters, whatever they are; changes are counted exactly if it changed |
| `StationCounters.ModeRightIff` | drivers/rtl88x2CU/core/rtw_ap.c:3720-3789 | that mode is the one recomputed over the stations if and only if the counter of stations without HT is zero exactly when there are none |
| `StationCounters.Ap.ResetNoHt` | drivers/rtl88x2CU/core/rtw_ap.c:1583-1585 | the counter stays exact if and only if no station carries the flag |
| `StationCounters.Ap.HearNonHt` | drivers/rtl88x2CU/core/rtw_mlme_ext.c:10635-10650 | a network without HT heard in a scan puts the counter off by one |
| `StationCounters.ResetThenLeave` | drivers/rtl88x2CU/core/rtw_ap.c:4060-4070 | a station without HT that leaves after the reset takes the counter to -1 and leaves the mode mixed |
| `StationCounters.Run` | drivers/rtl88x2CU/core/rtw_ap.c:3822-4111 | after any run of joins, re-joins, reports, leaves, networks heard and scans the stations with their flags, the counter of stations without HT and the operation mode are those of the events; every other counter is the number of carriers of its flag; from an empty start protection is announced exactly if a station that has not left announced itself as non-ERP when it joined last; the Barker bit is that of the events |
| `StationCounters.FlagsAreLast` | drivers/rtl88x2CU/core/rtw_ap.c:3842-3935 | a station's preamble, ERP, slot and legacy flags are what it announced when it joined last |
| `StationCounters.HtFlagsStick` | drivers/rtl88x2CU/core/rtw_ap.c:3932-3995 | the greenfield, 20 MHz and intolerance flags are carried exactly if some join or report since the station came brought them: a better re-join does not clear them |
| `StationCounters.NonErpTells` | drivers/rtl88x2CU/core/rtw_ap.c:3872-3896 | there is a non-ERP station exactly if one that has not left announced itself as such when it joined last |
| `StationCounters.ModeIs` | drivers/rtl88x2CU/core/rtw_ap.c:3765-3782 | the mode that the stations call for, in numbers |
| `StationCounters.ModeFollows` | drivers/rtl88x2CU/core/rtw_ap.c:3720-3789 | after a join with HT on, or the leave of a known station, the mode is the one that the stations call for: always without scans of its own, and with them under the exact condition on the counter |
| `StationCounters.ModeWaits` | drivers/rtl88x2CU/core/rtw_ap.c:3720-3789 | other events leave the mode as it is |
| `StationCounters.BarkerIsLast` | drivers/rtl88x2CU/core/rtw_ap.c:3149-3154 | after every run the Barker preamble bit says whether there were stations without short preamble when the first non-ERP station came or the last one went |
| `StationCounters.BarkerRightIff` | drivers/rtl88x2CU/core/rtw_ap.c:3842-3896 | it is right now if and only if there are such stations now just as there were then |
| `StationCounters.BarkerMissed` | drivers/rtl88x2CU/core/rtw_ap.c:3842-3862 | two joins after which it is wrong |
| `StationCounters.NoHtDrift` | drivers/rtl88x2CU/core/rtw_ap.c:1583-1585 | over every run the counter of stations without HT is off by exactly the networks heard since the last reset less the stations that carried the flag at that reset |
| `StationCounters.ModeAfter` | drivers/rtl88x2CU/core/rtw_ap.c:3720-3789 | after every run the mode is that of the last rewriting join or leave, and was the recomputed one then if and only if the counter was zero exactly when there was no station without HT |
| `Nat25Db.Hash` | drivers/rtl88x2CU/core/rtw_br_ext.c:330-381 | a bucket number for every address |
| `Nat25Db.GenerateCollides` | drivers/rtl88x2CU/core/rtw_br_ext.c:165-229 | the address builders are injective, except for an IPX socket and the node address that starts with it |
| `Basics.TimeAfterIs` | drivers/rtl88x2CU/core/rtw_br_ext.c:145-162 | the kernel's comparison: a time is after another exactly if the clock gets there with at least one tick and at most half its range |
| `Nat25Db.ExpiredIs` | drivers/rtl88x2CU/core/rtw_br_ext.c:145-162 | an entry is expired from the ageing time after its last refresh on, for half the clock's range |
| `Nat25Db.ExpiredAfter` | drivers/rtl88x2CU/core/rtw_br_ext.c:145-162 | d ticks after its refresh an entry is expired exactly if d is at least 300 seconds' worth |
| `Nat25Db.NatDb.HashLink` | drivers/rtl88x2CU/core/rtw_br_ext.c:384-398 | the entry becomes the head of its chain with consistent forward and back links, and the map gains it |
| `Nat25Db.NatDb.HashUnlink` | drivers/rtl88x2CU/core/rtw_br_ext.c:401-414 | the entry leaves its chain, links stay consistent, and the map loses it |
| `Nat25Db.NatDb.Find` | drivers/rtl88x2CU/core/rtw_br_ext.c:422-431 | the chain walk finds the entry of the address exactly if the map has it |
| `Nat25Db.NatDb.LookupAndReplace` | drivers/rtl88x2CU/core/rtw_br_ext.c:417-488 | found exactly if in the map; a live entry gives its MAC and gains a use |
| `Nat25Db.NatDb.Insert` | drivers/rtl88x2CU/core/rtw_br_ext.c:491-526 | the map is updated at the address: refreshed, or new with one use |
| `Nat25Db.NatDb.TakeShortcut` | drivers/rtl88x2CU/core/rtw_xmit.c:4651-4661 | the shortcut points at the entry of the address, refreshed, or nowhere |
| `Nat25Db.NatDb.RefreshShortcut` | drivers/rtl88x2CU/core/rtw_xmit.c:4663-4666 | the entry that the shortcut refers to is in the map and only its age changes |
| `Nat25Db.NatDb.ClientTx` | drivers/rtl88x2CU/core/rtw_xmit.c:4624-4671 | at most one entry is refreshed: that of the source address for a new MAC, else the one of the shortcut; and the shortcut afterwards, exactly |
| `Nat25Db.NatDb.ExpireEntry` | drivers/rtl88x2CU/core/rtw_br_ext.c:657-722 | an aged entry loses a use and goes with the last one, and the shortcut never keeps it |
| `Nat25Db.NatDb.Expire` | drivers/rtl88x2CU/core/rtw_br_ext.c:645-730 | one sweep of the linked table is one sweep of the map, and the shortcut is forgotten exactly with its entry |
| `Nat25Db.NatDb.Cleanup` | drivers/rtl88x2CU/core/rtw_br_ext.c:616-642 | empty map, no shortcut |
| `Nat25Db.AgedEntryGoes` | drivers/rtl88x2CU/core/rtw_br_ext.c:645-730 | over any operations that come at least 300 seconds after its last refresh, an entry is there exactly as long as there was no cleanup and fewer sweeps happened than its uses |
| `Nat25Db.YoungEntryStays` | drivers/rtl88x2CU/core/rtw_br_ext.c:645-730 | over any operations within 300 seconds of its last refresh, an entry goes only with a cleanup, and its uses grow by its lookups |
| `Nat25Db.EntryIsLast` | drivers/rtl88x2CU/core/rtw_br_ext.c:491-526 | the MAC of an entry is that of the last insertion of its address, its age the time of the last insertion or refresh |
| `Nat25Db.GoneStaysGone` | drivers/rtl88x2CU/core/rtw_br_ext.c:491-526 | a removed address stays out until it is inserted again, whatever is looked up, refreshed, swept or cleaned up |
| `Nat25Db.Run` | drivers/rtl88x2CU/core/rtw_br_ext.c:384-730 | every run of insertions, lookups, transmissions, sweeps and cleanups on the linked table is the run on the map and the shortcut; the shortcut never refers to a removed entry |
| `Nat25Db.OpsAre` | drivers/rtl88x2CU/core/rtw_xmit.c:4624-4671 | the map after a run of events is the map after operations that the events and the shortcut determine, so that what becomes of aged and young entries holds over events |
| `Nat25Db.TransmissionRefreshes` | drivers/rtl88x2CU/core/rtw_xmit.c:4624-4671 | which entry a transmission refreshes, and that nothing else changes in the table |
| `Nat25Db.ShortcutIs` | drivers/rtl88x2CU/core/rtw_xmit.c:4651-4661 | in every run the shortcut refers to an entry of the table whose address was the source of a frame with the shortcut's MAC |
| `DhcpChecksum.Fold` | drivers/rtl88x2CU/core/rtw_br_ext.c:1552-1555 | the fold ends, below 2^16, congruent modulo 0xFFFF, zero only for zero |
| `DhcpChecksum.DhcpFlagBcast` | drivers/rtl88x2CU/core/rtw_br_ext.c:1538-1556 | the words after the patch |
| `DhcpChecksum.PatchSets` | drivers/rtl88x2CU/core/rtw_br_ext.c:1538-1556 | the flag is set and no other bit of the flags word changes; of the other words only the checksum does, and nothing if the flag was set |
| `DhcpChecksum.PatchVerifies` | drivers/rtl88x2CU/core/rtw_br_ext.c:1543-1555 | for every datagram with a verifying checksum and the flag clear, the patched one verifies if and only if the old flags were zero |
| `DhcpChecksum.PatchAddsChecksum` | drivers/rtl88x2CU/core/rtw_br_ext.c:1544-1555 | a datagram without a checksum gets one, and exactly when it is right |
| `SupportedChannels.SetSptChsIe` | drivers/rtl88x2CU/core/rtw_chset.c:291-339 | the pairs written expand to exactly the enabled channels in order, the runs are maximal, id, length octet, returned position and length agree, and nothing is written for no channels |
| `SupportedChannels.EnabledIs` | drivers/rtl88x2CU/core/rtw_chset.c:291-339 | the channels to list are exactly those not disabled |
| `SupportedChannels.ListedIff` | drivers/rtl88x2CU/core/rtw_chset.c:291-339 | on the octets: a channel is listed exactly if some pair starts at or below it and reaches it |
| `SupportedChannels.MaximalRunsUnique` | drivers/rtl88x2CU/core/rtw_chset.c:291-339 | a channel list has only one decomposition into maximal runs, so that the element is determined |
| `Sounding.Sounder.ResetVars` | drivers/rtl88x2CU/core/rtw_beamforming.c:661-684 | empty lists and no used entry marked as sounded |
| `Sounding.Sounder.GetList` | drivers/rtl88x2CU/core/rtw_beamforming.c:693-778 | the lists are the first two single-user and the first six multi-user entries that are due, every entry is counted down or reloaded as specified; the result tells none from none ready |
| `Sounding.Sounder.Prepare` | drivers/rtl88x2CU/core/rtw_beamforming.c:804-812 | a new period lists exactly the plan of the specification, none of its entries marked |
| `Sounding.Sounder.Open` | drivers/rtl88x2CU/core/rtw_beamforming.c:804-849 | a period opens with its plan, or is refused, as specified |
| `Sounding.Sounder.FindSu` | drivers/rtl88x2CU/core/rtw_beamforming.c:851-859 | the scan finds the next single-user target of the plan, or none when all are started |
| `Sounding.Sounder.Continue` | drivers/rtl88x2CU/core/rtw_beamforming.c:851-927 | the marks and lists lead to the same next target or end as the plan; the recursion over entries to delete ends because the plan gets shorter |
| `Sounding.Sounder.StartSu` | drivers/rtl88x2CU/core/rtw_beamforming.c:860-884 | starts exactly the next target of the plan, and clears its timeout flag |
| `Sounding.Sounder.StartMu` | drivers/rtl88x2CU/core/rtw_beamforming.c:887-921 | starts the group as the last target of the plan |
| `Sounding.Sounder.Finish` | drivers/rtl88x2CU/core/rtw_beamforming.c:923-926 | closes the period, as specified, when all of the plan is started |
| `Sounding.Sounder.Handler` | drivers/rtl88x2CU/core/rtw_beamforming.c:780-927 | does exactly what the specification of the handler says to state, counters, entries, queue, progress and finished periods; terminates through the recursion on entries to delete |
| `Sounding.Sounder.SoundingDown` | drivers/rtl88x2CU/core/rtw_beamforming.c:1562-1621 | does exactly what the specification of a report says: ends the sounding under way and runs the handler, or nothing |
| `Sounding.Sounder.SuDown` | drivers/rtl88x2CU/core/rtw_beamforming.c:1582-1614 | records the outcome and the failure count as specified; the branch for a timed-out entry is never reached |
| `Sounding.Sounder.TimeoutTimer` | drivers/rtl88x2CU/core/rtw_beamforming.c:995-1025 | as specified: ends the sounding under way with a timeout and queues one handler run; nothing otherwise |
| `Sounding.Sounder.PeriodTimer` | drivers/rtl88x2CU/core/rtw_beamforming.c:951-993 | as specified: opens a period only when none runs |
| `Sounding.Sounder.Execute` | drivers/rtl88x2CU/core/rtw_beamforming.c:1878-1911 | as specified: one command is taken and handled |
| `Sounding.Sounder.UpdateTraffic` | drivers/rtl88x2CU/core/rtw_beamforming.c:2037-2067 | as specified, at any time: entries are asked to be sounded or deleted as their traffic tells, and a machine that is off starts |
| `Sounding.Sounder.SetReady` | drivers/rtl88x2CU/core/rtw_beamforming.c:1330-1340 | hardware state and suspension of an entry can change at any time |
| `Sounding.Run` | drivers/rtl88x2CU/core/rtw_beamforming.c:780-1025 | every run of the driver's machine on any timers, timeouts, reports, traffic updates, entry changes and executions is the run of the specification on them |
| `SoundingSpec.FirstDueIs` | drivers/rtl88x2CU/core/rtw_beamforming.c:705-765 | the entries listed are the first due ones, in order, as many as there is room for |
| `SoundingSpec.NewPlanIsGood` | drivers/rtl88x2CU/core/rtw_beamforming.c:705-765 | a plan has no target twice, at most two single-user entries, and the group at most once, last |
| `SoundingSpec.GoMoves` | drivers/rtl88x2CU/core/rtw_beamforming.c:851-927 | one run of the handler inside a period, however many entries it deletes on its way, starts a target that was not started before, or closes the period with all its plan sounded; the plan stays |
| `SoundingSpec.StepKeepsInv` | drivers/rtl88x2CU/core/rtw_beamforming.c:780-1025 | every event keeps the invariant; an open period keeps its plan and what was started and ended, and goes on or closes; an effective run of the handler does not leave it where it was; `sounding_running` and the queued handler runs are accounted for |
| `SoundingSpec.RunKeepsInv` | drivers/rtl88x2CU/core/rtw_beamforming.c:780-1025 | in every run each finished period sounded its plan in order, each target once and the group last, with one outcome each, in at most two more handler runs than its plan has single-user entries; the open period is on its way there |
| `SoundingSpec.EveryRun` | drivers/rtl88x2CU/core/rtw_beamforming.c:650-659 | so it is in every run from the start of the machine |
| `SoundingSpec.RunsAreStarts` | drivers/rtl88x2CU/core/rtw_beamforming.c:780-927 | as long as a period is open, every run of the handler, however often and between whatever events, starts a further target of its plan |
| `SoundingSpec.PeriodCloses` | drivers/rtl88x2CU/core/rtw_beamforming.c:780-927 | a period is closed at the latest when the handler has run once more than its plan has targets left, whatever comes in between and however each sounding ends |
| `SoundingOutcomes.GoPasses` | drivers/rtl88x2CU/core/rtw_beamforming.c:860-884 | the handler passes over exactly the entries marked for deletion at the head of what is left of the plan: each is reported down without a sounding and loses its mark, and nothing else changes; the target it starts is not marked, and the period closes only if nothing is left |
| `SoundingOutcomes.NextIsSounded` | drivers/rtl88x2CU/core/rtw_beamforming.c:870-884 | a next target that is not marked is sounded at once and no outcome is added |
| `SoundingOutcomes.OutcomesHaveCauses` | drivers/rtl88x2CU/core/rtw_beamforming.c:780-1025 | in every run each outcome of each finished period and of the open one has its cause in the run: the timeout of that target's sounding, the report that the thread took while that target was being sounded, or the deletion mark of that entry when the thread passed it |
| `SoundingOutcomes.TimeoutEnds` | drivers/rtl88x2CU/core/rtw_beamforming.c:995-1025 | a timeout ends the sounding under way as such and queues one run of the handler |
| `SoundingOutcomes.ReportEnds` | drivers/rtl88x2CU/core/rtw_beamforming.c:1582-1614 | a report ends the sounding with what it says and goes to the entry that was sounded, and to no other: failures cleared, counted, or the mark cleared; the 31st in a row tells the entry to leave |
| `SoundingOutcomes.FailuresInARow` | drivers/rtl88x2CU/core/rtw_beamforming.c:1607-1613 | an entry is told to leave by the 31st failure in a row and by no earlier one |
| `SoundingOutcomes.GroupListed` | drivers/rtl88x2CU/core/rtw_beamforming.c:734-746 | a period sounds the group exactly if some group entry is due |
| `SoundingOutcomes.EntryListed` | drivers/rtl88x2CU/core/rtw_beamforming.c:747-764 | a period lists a single-user entry exactly if it is due, marked or applying and not suspended, and fewer than two such come before it |
| `SoundingOutcomes.WaitsItsTurn` | drivers/rtl88x2CU/core/rtw_beamforming.c:717-726 | over any number of periods an entry that counts c more loses one with each and is in none of the next c - 1 plans |
| `SoundingOutcomes.CountsAnew` | drivers/rtl88x2CU/core/rtw_beamforming.c:754-763 | a listed entry is counted anew from its period, a marked one is not |
| `SoundingOutcomes.StaysDue` | drivers/rtl88x2CU/core/rtw_beamforming.c:734-764 | a due entry that finds no room stays due, for the group only behind six others; a listed group entry is counted anew |
| `SoundingOutcomes.GivesUp` | drivers/rtl88x2CU/core/rtw_beamforming.c:819-830 | while entries are used but none is ready the machine waits for five periods and goes off at the next |
| `SoundingOutcomes.PeriodOpens` | drivers/rtl88x2CU/core/rtw_beamforming.c:804-849 | a start of the handler with something to sound opens a period with exactly the new plan |
| `SoundingOutcomes.PeriodRefused` | drivers/rtl88x2CU/core/rtw_beamforming.c:812-845 | otherwise none is opened, and the machine goes off exactly if nothing is to be sounded and nobody is waited for or the wait is over |
| `SoundingOutcomes.TimerStarts` | drivers/rtl88x2CU/core/rtw_beamforming.c:951-993 | the timer starts a period exactly if the machine is on and none runs |
| `SoundingOutcomes.TrafficTells` | drivers/rtl88x2CU/core/rtw_beamforming.c:2037-2067 | an entry applies exactly if its traffic was judged so; stopping marks it for deletion; a change makes it due; a machine that is off starts exactly with a change |
| `Telemetry.Backoff` | src/telemetry_sender.py:163-170 | between one second and the cap |
| `Telemetry.TelemetrySender.UpdateState` | src/telemetry_sender.py:70-131 | only messages of the target system change the record, as the message says |
| `Telemetry.TelemetrySender.Send` | src/telemetry_sender.py:150-178 | counters and backoff gate after each kind of answer |
| `Telemetry.TelemetrySender.Run` | src/telemetry_sender.py:180-208 | the loop posts exactly the trace of the run and ends in its final state |
| `Telemetry.PositionInvariant` | src/telemetry_sender.py:84-96 | in every run latitude and longitude are both unset or both non-zero, and every payload has them |
| `Telemetry.FieldIsLast` | src/telemetry_sender.py:84-131 | in every run every field of the record is what the last message of the vehicle that said something about it said; zero positions, negative charges and the voltage 65535 say nothing |
| `Telemetry.FieldIsInitial` | src/telemetry_sender.py:84-131 | without such a message it is as at the start |
| `Telemetry.PostIsCurrent` | src/telemetry_sender.py:180-208 | every POST carries the record as the messages up to its turn have made it |
| `Telemetry.PostedPosition` | src/telemetry_sender.py:84-93 | the latitude and longitude posted are those of the vehicle's last valid position message |
| `Telemetry.FailuresCounted` | src/telemetry_sender.py:150-178 | the failure count is the number of transport failures and server errors since the last 200 |
| `Telemetry.PostsWhenDue` | src/telemetry_sender.py:190-206 | without the position check a turn posts exactly if the interval has passed since the last POST and the backoff gate is open |
| `Telemetry.SilentUntilLocated` | src/telemetry_sender.py:191-198 | with it nothing is posted before the vehicle has reported a position |
| `Telemetry.Spacing` | src/telemetry_sender.py:190-206 | POSTs start at least the interval apart |
| `Telemetry.AuthBackoff` | src/telemetry_sender.py:163-170 | the POST after the k-th 401 since the last 200 starts at least min(60, 2^(k-1)) seconds after the answer |
| `Telemetry.BackoffIs` | src/telemetry_sender.py:163-170 | the wait after the k-th rejection: 1, 2, 4, 8, 16 and 32 seconds, and 60 from the seventh on |
| `Telemetry.GateOpens` | src/telemetry_sender.py:190-206 | the backoff gate never stays closed longer than 60 seconds after the last 401 |
| `Telemetry.ForeignMessagesIrrelevant` | src/telemetry_sender.py:70-82 | silencing all messages of other systems changes neither the POSTs nor the state |

## Left out

- Hardware registers, HAL calls, semaphores' liveness, logging, sockets: effects outside the code; clocks, firmware answers and database contents are parameters.
- Command thread: the queue and objects are values of a step system rather than heap objects, so link manipulation of the list is not modelled; callbacks that free the command object themselves, and commands executed directly, are not modelled.
- Command thread: unlocking a mutex that somebody else holds is taken to release it, as the kernel does without its debugging checks; what the kernel does after a bad access is not modelled.
- Regulatory engine: `regd_req_mutex` is taken with the same interruptible call; here a request is handled without interference.  Operating-system requests, the 6 GHz band, records of scanned networks (`CISF_ENV_BSS`) and the choice of the initial plan; allocations succeed.
- RegdEngine.RfCtl.PrehdlUser: the pointer `user_req` into the list is a copy of the plan it refers to, tied to the list by the invariant; other configuration of a request is only "set" and "changes something".
- ChannelSet.PlanIsBchbwValid: the contents of the centre-channel and operating-channel tables are not modelled; they are arbitrary functions.
- BeaconCsa.ChangesOnce: the width and offset of the new channel, which the order carries along, are not modelled.
- BeaconCsa.Ap.UpdateBeacon: handing the new beacon to the hardware is not modelled.
- BeaconIe.Bss.AddBcnIe: the room in the buffer is required, as the driver takes it for granted; its allocation of the remainder succeeds.
- StationCounters.Run: the other bits of `ht_op_mode`, the beacon-updated results, mesh, and the power and capability bookkeeping of `rtw_ap.c` are not modelled.
- Nat25Db.NatDb.Insert: allocation succeeds, use counts do not wrap, and HZ is 250; packet rewriting and PPPoE relay tags are not modelled.
- Sounding.Run: entering, leaving and forced stops inside a period are not modelled; a request to drop a failing entry is only recorded, and entries are added and removed between periods only.
- Sounding.Sounder.SuDown: handlers, timers and reports do not interrupt each other here.  On the device the timeout timer can fire between the test of the state and the test of the timeout flag, which reaches the branch that is shown to be dead.
- Sounding.Sounder.PeriodTimer: the forced stop after repeated delays is not modelled.
- Telemetry.TelemetrySender.Send: payload formatting, rounding, and exceptions that the loop does not catch are not modelled.
- Channel decisions and radar handling (`rtw_ap_chbw_decision`, `rtw_chset_sync_bchbw`): their meaning lies in other files.
