# SpeedyCGI: the shared slot store, its protocol, and the streams around it

SpeedyCGI keeps Perl scripts loaded in backend processes. Frontends, backends and one parent
process per group share nothing but a temp file of slots, a lock on that file and signals. This
project models that system in Dafny and proves what it relies on.

## How the project is laid out

- `Lists`, `SlotLinks`: the slot lists, as sequences and as the linked arrays of `speedy_slot.c`.
- `Memory`: the mapped file, with the links of `SlotLinks`, a record for each slot and the header
  fields. Its ghost field `st` is the store it stands for: `Valid()` says that every list of the
  store is a chain of the links, with the head and tail that its header field or its group's
  record shows, and that the lists, the free one included, share no slot.
- `Store`, `Sections`: what each C function, and each critical section, does to the slot store,
  as functions on values. A store holds the slots (a tagged union), the header lists and the set
  of processes for which `kill(pid, 0)` succeeds.
- `TempFile`: the same C functions as methods on the mapped file, step by step with their loops,
  which read and write records and links only. Every method is proved equal to its function. Each
  record read is proved to be of the kind that is expected, and each next or prev link read is
  that of a slot that is on a list, so that no freed slot is read and none is freed twice.
- `Conservation`, `Invariants`: the store invariant. Every slot is on exactly one list; links
  between backends and frontends agree; backend lists are ordered; only the head of a queue may
  have been signalled; the script index is consistent; the backend limit holds.
- `Respect`: what the holder of the lock owes to the others (their slots stay, nobody overtakes,
  one hand-off at a time), as a relation between the store before and after.
- `Joining`, `Keeping`, `Granting`, `Groups`, `InTheHand`, `Scripts`, `Sweeping`,
  `FrontendSide`, `BackendSide`, `Footprint`, `Choosing`: every operation and every section keeps
  the invariant and honours that relation.
- `Neighbours`, `Progress`, `Effects`, `ExitStatus`: what the sections achieve, stated without
  naming the functions that do it: whom the sweep leaves, when a backend is asked for, granted and
  started, who is woken, collected and given up, and which exit status a frontend finds.
- `Protocol`, `Safety`, `Runs`, `Recency`: the processes. A run is any sequence of events, each a
  critical section of some process, an arrival, a departure or a death. `Safety` proves that every
  event keeps the system invariant, `Runs` what follows for all runs, `Recency` which of the
  waiting backends a run uses next.
- `Replay`: any run, performed by the methods of `TempFile` on a mapped file from an empty one on.
- `FileLock`: `speedy_file.c` as a class.
- `CrashSafety`: all runs of any number of processes on any number of temp files. A process opens,
  locks, writes half of a section, completes it by an event of `Protocol` of its own, or dies, in
  the middle of a round of file_lock too; each file with the processes at home in it is a system
  of `Protocol`, and the access state after a section is the one that the code sets.
- `Losing`, `Straying`: which process comes back to the file its slot is in, and what it does to
  another one.
- `Circular`, `Streams`, `CopyLoop`, `Wire`, `Transport`: the circular buffer, the copy buffer,
  the copy loop, the request header and the way of a request through all of them.
- `Argv`: the command line. `SigMask`: the signal mask, with a log of every mask that has been in
  force, of whether the process had the lock then and of the signals that were delivered.

## What the runs assume

- `kill(pid, 0)` succeeds exactly for live processes, and a process id is not used again. A child
  counts as live until its parent has collected it.
- A process always sees itself as live; SIGKILL takes effect in the same step.
- A connection to a backend fails only if the backend is dead or has decided to leave; `accept`
  returns only after a frontend has connected and given up the lock.
- All processes use the same MaxBackends, and one temp file per run of `Protocol`; `CrashSafety`
  lets files come and go.
- A section that is completed is one atomic event, which sees the processes that live when it
  ends. Sections cut short by a death are the subject of `CrashSafety`: what is written in one is
  arbitrary, except that slots_alloced only grows and stays within what some section of the process
  could bring it to. A section that runs out of the 65529 slot numbers is one cut short by a death.
- No two files get the same create time (`CrashSafety`); a file is identified by it, as in the code.
- Where a process has strayed into a file that its slot is not in, the section it completes there
  writes anything, kills anybody and ends in any way; nothing is said of the store of such a
  file from then on.
- A script may fork; the child, if it comes back, closes the file and leaves. Other children, such
  as the one that goes on copying, never use the file.
- Forking a parent process is part of the frontend's section, which waits for it.
- The fields `grp` of a backend, script and name slot and `loc` of a frontend slot record which
  list the slot is on. The program does not read them.
- Sizes in `FileLock` are those of a 64-bit build; all that matters is that the header and five
  slots fit into one extension of 512 bytes. Strings on the wire are shorter than 2^31 bytes.

## Where the code does less than one might expect

- A process that holds a slot comes back to the file of this slot, and finds it as it left it,
  except in two states (`Losing.ComesHomeExactly`). A backend that a parent process has forked
  closes the file, and opens it anew before its first section without looking at the create time
  (src/speedy_backend_main.c:113-126). A frontend goes to FS_OPEN when it has asked for an exit
  status that is not there yet (src/speedy_main.c:387-392), and asks again from there. When the file
  has been replaced in between, because some process died in a section, either of them takes the
  new file for its own.
- With their old slot numbers both may break the new file. A frontend that asks leaves it good
  exactly if it hits the slot of a running frontend, one whose backend has not died together with
  it (`Straying.CollectGoodExactly`); then that frontend may lose its slot. A backend leaves it good
  exactly if it hits an invalid group, or a backend of the very group that has no frontend
  (`Straying.ReadyGoodExactly`). `Losing.StoreLost` is a run in which the slot of a frontend that
  waits in a queue is freed under it, so that the next one to lock the file sees a broken store.
  It takes such a stray (`CrashSafety.GoodUnlessStray`).
- A queued frontend takes its SIGALRM handler down while it has the lock. If SIGALRM is pending
  then, and only then, speedy_sig_free waits for it with the mask from before the lock
  (src/speedy_sig.c:133-151, src/speedy_frontend.c:348): any other signal can be delivered in the
  critical section, and one that kills the process leaves lock_owner set (`SigMask.FrontendUse`,
  `SigMask.TerminatedUnderLock`). At all other times everything is blocked while the file is locked.
- A file that was abandoned is unlinked by everyone who has it open and locks it, and by name, so
  that the file which has taken its place loses its name (src/speedy_file.c:235-237, 154).
- When the copy loop is left at the fork (src/speedy_main.c:376) and that fork has failed, nobody
  goes on with what is still to be read; `CopyLoop.Copy` tells this way out from the other.
- When the second fork of be_parent_spawn fails (src/speedy_frontend.c:145-150), the group stays
  without a parent process and is invalidated, and the frontend gives up and tries again.
- exec_argv splits back into the same parts exactly when no word of PerlArgs is "--" or lacks its
  dash and no option value set beforehand holds white space (`Argv.ExecArgvRoundTrip`).
- A read into a full copy buffer that realloc could not enlarge is one of no bytes and is taken
  for the end of the file; it happens in no other case (`Streams.ReadRoom`).

## Model

| member | source | states |
|---|---|---|
| SlotLinks.Links.Remove | src/speedy_slot.c:22-37 | takes the slot out of the chain both ways, head and optional tail included; no other list and no free slot is touched |
| SlotLinks.Links.Insert | src/speedy_slot.c:39-47 | the chain afterwards runs through the slot and then the old list |
| SlotLinks.Links.Append | src/speedy_slot.c:49-57 | the chain afterwards runs through the old list and then the slot |
| SlotLinks.Links.InsertSorted | src/speedy_slot.c:60-76 | the loop over link pointers puts the slot before the first one that compares not less, at the end if there is none |
| SlotLinks.Links.MoveHead | src/speedy_slot.h:90-96 | the slot goes to the front, the others keep their order |
| SlotLinks.Links.MoveTail | src/speedy_slot.h:97-103 | the slot goes to the end, the others keep their order |
| SlotLinks.Links.Alloc | src/speedy_slot.c:80-117 | takes the head of the free list, else the next number; fails exactly when numbers run out or the file is too small |
| SlotLinks.Links.Free | src/speedy_slot.c:120-135 | refuses exactly slot 0 and the slots that are free already, and otherwise puts the slot on the free list |
| Memory.Mapped.SlotAlloc | src/speedy_slot.c:80-117 | takes a slot of the whole file; with room and numbers left, as every section has them, it does not abort |
| Memory.Mapped.SlotFree | src/speedy_slot.c:120-135 | a slot that is on no list goes on the free list, and all lists stay linked |
| Memory.Mapped.Remove | src/speedy_slot.c:22-37 | one list of the file loses the slot; head and tail field agree, all other lists keep their links |
| Memory.Mapped.Insert | src/speedy_slot.c:39-47 | one list of the file begins with the slot, the others keep their links |
| Memory.Mapped.Append | src/speedy_slot.c:49-57 | one list of the file ends with the slot, the others keep their links |
| Memory.Mapped.InsertSorted | src/speedy_slot.c:60-76 | one list of the file has the slot before the first one that compares not less |
| Memory.Mapped.ToHead | src/speedy_slot.h:90-96 | the slot goes to the front of its list in the file |
| Memory.Mapped.ToTail | src/speedy_slot.h:97-103 | the slot goes to the end of its list in the file |
| Memory.Mapped.Next | src/speedy_slot.h:88 | the next link of a slot on a list, which is not free, is the slot after it |
| Memory.Mapped.FreeScripts | src/speedy_group.c:29-37 | every script of the group is freed; each link is read before freeing the slot overwrites it |
| Memory.LinkedWith | src/speedy_slot.c:22-76 | when one list is relinked every other list of the file stays a chain, the free one too |
| TempFile.File.RemoveRunning | src/speedy_frontend.c:31-41 | the running frontend goes, and a backend that serves it becomes busy with nobody |
| TempFile.File.Exited | src/speedy_backend.c:140-155 | the backend is unlinked from its frontend, which gets the status, or goes if it is dead |
| TempFile.File.BackendDispose | src/speedy_backend.c:22-33 | the backend leaves its frontend, its list and its slot |
| TempFile.File.FrontendDispose | src/speedy_frontend.c:22-29 | the frontend leaves its queue and its slot; the others keep their order (Keeping.FrontendDisposeRespects) |
| TempFile.File.RemoveBeWait | src/speedy_backend.c:109-120 | the loop that stops at the first busy backend signals exactly the waiting ones |
| TempFile.File.Invalidate | src/speedy_group.c:22-52 | frees scripts and name, signals exactly the waiting backends, moves the group to the end |
| TempFile.File.BeStarting | src/speedy_group.c:54-64 | the recorded pid if that process lives, else the record is cleared |
| TempFile.File.SendSigs | src/speedy_group.c:66-98 | if a backend waits, dead frontends at the head go and the first live one is marked |
| TempFile.File.Cleanup | src/speedy_group.c:101-120 | a group without backends and frontends loses its parent process, its resources and its slot |
| TempFile.File.GroupCreate | src/speedy_group.c:122-137 | a new group at the head of the list, with a name slot when grouping is on |
| TempFile.File.ParentSig | src/speedy_group.c:140-149 | a dead parent process invalidates the group |
| TempFile.File.StartBe | src/speedy_group.c:151-159 | a parent process that is still starting counts as signalled; a dead one leaves the group invalid and without parent |
| TempFile.File.BeWaitGet | src/speedy_backend.c:36-48 | grabs the head of the backend list unless one is starting or the head is busy |
| TempFile.File.BeWaitPut | src/speedy_backend.c:59-91 | the comparison loop with do_sort puts the backend where the order wants it |
| TempFile.File.CreateSlot | src/speedy_backend.c:93-105 | a busy backend slot at the end of the list |
| TempFile.File.CountBes | src/speedy_backend.c:122-133 | the count that stops early is the smaller of length and limit |
| TempFile.File.BelowMax | src/speedy_backend.c:122-138 | decides exactly whether the list is shorter than the limit |
| TempFile.File.CleanRunning | src/speedy_frontend.c:62-66 | dead frontends go from the end of the running list |
| TempFile.File.CollectStatus | src/speedy_frontend.c:45-60 | a dead backend is noticed; a finished frontend gives its slot back and gets the exit status, which is set in no other case (see ExitStatus.StatusIsReported) |
| TempFile.File.FePrev | src/speedy_frontend.c:232-242 | the walk up the queue and round the groups finds the frontend before |
| TempFile.File.CheckPrev | src/speedy_frontend.c:244-266 | the sweep ends, and the neighbour it looked up is still there after each removal (see Neighbours.PrevAlive) |
| TempFile.File.BackendCheck | src/speedy_frontend.c:195-226 | spawns and asks for a backend only when none is starting, and at most once (exactly when: Progress.CheckDecides) |
| TempFile.File.Ping | src/speedy_frontend.c:271-283 | sweeps, and only the head of the queue checks on backends |
| TempFile.File.Turn | src/speedy_frontend.c:302-332 | one turn of the queueing loop |
| TempFile.File.Search | src/speedy_script.c:96-140 | the search over the list it reorders visits each group once and ends |
| TempFile.File.ScriptFind | src/speedy_script.c:88-175 | the whole lookup |
| TempFile.File.Finish | src/speedy_frontend.c:408-463 | the granted backend is linked, handed over or disposed of |
| TempFile.File.Settle | src/speedy_frontend.c:343-373 | the end of get_a_backend and of the request (see InTheHand.FinishKeeps and Runs.GrantIsRecorded) |
| TempFile.File.QueueTurn | src/speedy_frontend.c:302-351 | a queued frontend's section (see Sweeping.TryGetKeeps and Runs.FirstComeFirstServed) |
| TempFile.File.Request | src/speedy_frontend.c:376-463 | a new request's section, quick path and queue |
| TempFile.File.Wake | src/speedy_frontend.c:334-351 | a frontend that wakes up gives up when its group or script is stale |
| TempFile.File.FindPid | src/speedy_backend_main.c:38-51 | the first backend with the pid, or none |
| TempFile.File.CollectChildren | src/speedy_backend_main.c:53-73 | every dead child that has a slot passes on its status and gives it back |
| TempFile.File.StartChild | src/speedy_backend_main.c:75-108 | a backend is started only when no other process is starting and below the limit |
| TempFile.File.DoCleanup | src/speedy_backend_main.c:128-166 | an orphaned neighbour group is invalidated, rid of dead backends and perhaps removed |
| TempFile.File.ParentStart | src/speedy_backend_main.c:209-236 | a parent process takes the group over unless a live one has it |
| TempFile.File.ParentWake | src/speedy_backend_main.c:238-270 | collects, starts, cleans up, and leaves on an alarm without children |
| TempFile.File.GoIdle | src/speedy_perl.c:961-972 | maturity, wait list, be_starting and the signal, in this order; the backend waits with that maturity (see Recency.EventOrder) |
| TempFile.File.Accepted | src/speedy_perl.c:983-992 | a connected backend clears be_starting and wakes the next frontend; the invariant is kept |
| TempFile.File.RunOver | src/speedy_perl.c:997-1010 | a backend that has run a script reports its exit status (see ExitStatus.ExitStatusArrives), then loops or asks for a replacement and leaves |
| Conservation.InvalidateWf | src/speedy_group.c:22-52 | invalidation moves slots only from the group's script list and name to the free list |
| Conservation.CleanupWf | src/speedy_group.c:101-120 | clean-up leaves every slot on exactly one list |
| Keeping.ExitedInv | src/speedy_backend.c:140-155 | the links between backends and running frontends still agree |
| Keeping.BackendDisposeInv | src/speedy_backend.c:22-33 | no link refers to the freed slot, and a grabbed backend leaves an ordered list |
| Granting.SendSigsKeeps | src/speedy_group.c:66-98 | sent_sig is set on the head of the queue only, and no live frontend is dropped |
| Granting.BeWaitGetKeeps | src/speedy_backend.c:36-48 | all but the grabbed backend stay ordered |
| Granting.BeWaitPutKeeps | src/speedy_backend.c:83-91 | the whole list is ordered again |
| Choosing.BeWaitGetExact | src/speedy_backend.c:36-48 | fails exactly when one is starting or none waits; else no waiting backend is more mature or stands before it |
| Choosing.BeWaitPutPlace | src/speedy_backend.c:50-91 | a backend that goes idle stands before the waiting ones that are not more mature and behind those that are |
| Groups.CleanupKeeps | src/speedy_group.c:101-120 | no live parent process other than the caller loses its group |
| Scripts.ScriptFindKeeps | src/speedy_script.c:88-175 | returns a valid group at the head of the list whose first script has the very dev, ino and mtime, with the name asked for; the index stays consistent; at most three new slots |
| Scripts.ScanKeeps | src/speedy_script.c:96-140 | the search keeps the invariant whether or not it finds the script |
| Scripts.ScriptReused | src/speedy_script.c:96-148 | a script that some valid group of the right name offers is found, and no slot is taken |
| Scripts.StaleGoes | src/speedy_script.c:96-140 | a group of the right name that lists the file with another modification time is invalid after the lookup, unless it stands behind the group found |
| Scripts.OthersSpared | src/speedy_script.c:96-140 | a lookup invalidates no other group |
| Sweeping.SweepKeeps | src/speedy_frontend.c:244-266 | the sweep removes only dead frontends and never the caller or its group |
| Neighbours.FePrevIs | src/speedy_frontend.c:232-242 | whom fe_prev finds: the one before in the queue, or, from its head, the last one of the first group round the list that has a queue |
| Neighbours.PrevAlive | src/speedy_frontend.c:244-266 | after the sweep the frontend that fe_prev finds from the caller is alive |
| Neighbours.HeadAfterDead | src/speedy_frontend.c:244-283 | a caller with only dead frontends before it stands at the head of its queue after the sweep |
| Neighbours.GoneWereDead | src/speedy_frontend.c:244-266 | every queued frontend that has gone in the sweep was dead |
| Sweeping.TryGetKeeps | src/speedy_frontend.c:302-320 | a frontend is granted a backend only at the head of its queue |
| Sweeping.BackendCheckKeeps | src/speedy_frontend.c:195-226 | keeps the invariant and disturbs no start in progress |
| Progress.CheckDecides | src/speedy_frontend.c:195-226 | a backend is asked for exactly when none is starting, this frontend has not asked, the group is below the limit and a parent process is there or can be forked; the answer is no exactly when it has asked in vain |
| Progress.CheckLeaves | src/speedy_frontend.c:195-226 | whom it asks lives, is the parent process and is recorded as starting; without a parent process the group is invalid |
| Progress.SendSigsMarks | src/speedy_group.c:66-98 | the first live frontend of the queue is marked exactly if a backend waits, and nobody else |
| Progress.TryGetExact | src/speedy_frontend.c:302-320 | a queued frontend is granted a backend exactly if it is the first live one of its queue, a backend waits and none is starting |
| Progress.ConnectGetsExact | src/speedy_frontend.c:288-320 | a new request is granted one exactly if nobody alive queues, a backend waits and none is starting |
| InTheHand.FinishKeeps | src/speedy_frontend.c:408-463 | linking repairs the order that be_wait_get disturbed |
| FrontendSide.ConnectKeeps | src/speedy_frontend.c:376-463 | a request keeps the invariant and is fair to all others |
| FrontendSide.WakeKeeps | src/speedy_frontend.c:334-351 | so does a frontend that wakes up |
| BackendSide.StartChildKeeps | src/speedy_backend_main.c:75-108 | keeps the limit and records the child as starting |
| BackendSide.DoCleanupKeeps | src/speedy_backend_main.c:128-166 | takes nothing from a live process |
| BackendSide.ParentStartKeeps | src/speedy_backend_main.c:209-236 | a group with a live parent process keeps it |
| Effects.GoIdleEffect | src/speedy_perl.c:961-972 | a backend that goes idle waits with that maturity, is not recorded as starting, and the first live frontend of the queue is signalled |
| Effects.StartChildExact | src/speedy_backend_main.c:75-108 | a backend is started exactly if no process but the caller is starting, the group is below the limit and the fork succeeds; it is the last of the list |
| Effects.CleanupExact | src/speedy_group.c:101-120 | exactly a group without backends and frontends goes, with its scripts, its name and its parent process |
| Effects.Reaped | src/speedy_backend_main.c:38-73 | of the children in the list exactly those that waitpid reports go |
| Effects.DoCleanupExact | src/speedy_backend_main.c:128-166 | if the parent process of the group before ours is gone, that group is invalid, exactly its dead backends go, and it goes itself exactly if it is empty then; otherwise nothing changes |
| Effects.TakeOverExact | src/speedy_backend_main.c:219-230 | a parent process takes the group over exactly if no other one has it that lives or is about to start; from a dead one it takes an invalid group |
| Effects.CleanedEnd | src/speedy_frontend.c:62-66 | after the cleaning the last running frontend lives |
| Footprint.ConnectTakes | src/speedy_frontend.c:395-463 | a request takes at most four new slots and leaves none off all lists |
| Footprint.ParentStartTakes | src/speedy_backend_main.c:212-236 | so does the first section of a parent process |
| Safety.EventSound | src/speedy_frontend.c:376-463 | every event, whatever process it is of, keeps the store invariant and is fair to the others |
| Safety.StepKeeps | src/speedy_perl.c:947-1011 | every event keeps the system invariant |
| Runs.Safe | src/speedy_group.c:22-164 | every reachable state satisfies the invariant |
| Runs.EverySlotOnce | src/speedy_slot.c:80-135 | at every unlock each slot of the file is on exactly one list, once |
| Replay.Run | src/speedy_slot.c:22-135 | any run, performed by the methods on the mapped file, ends with the file of that run: every list a chain both ways with agreeing ends |
| Replay.EverySlotLinked | speedy_dump/missing_slots:16-24 | at every unlock of every run each slot is reached along the links from the head of exactly one list, at one place; its neighbours point back; its prev link is itself exactly when it is free |
| Runs.RemovableWhenEmpty | src/speedy_file.c:265-273 | with no groups and no running frontends every slot is free |
| Runs.FindsItsSlot | src/speedy_frontend.c:395-406 | a live process finds its slot as it left it, on its list, in a group that is still there |
| Runs.NeverShared | src/speedy_frontend.c:395-406 | no two live processes hold the same slot |
| Runs.FourSlots | src/speedy_slot.c:94-101 | no section takes more than four slots from beyond slots_alloced |
| Runs.MaxBackends | src/speedy_backend.c:135-138 | a backend list never exceeds the limit |
| Runs.OneFrontendEach | src/speedy_frontend.c:428-447 | a backend serves at most one frontend, the two point at each other, and no link leads to a freed slot |
| Runs.FirstComeFirstServed | src/speedy_frontend.c:288-373 | while a live frontend waits, nobody who came to its queue later is granted a backend of the group |
| Runs.OneHandOff | src/speedy_group.c:54-64 | while the process recorded as starting lives and has not run, no event grants a backend of the group, whether the connection succeeds or not, and none starts one there |
| Runs.GrantIsRecorded | src/speedy_frontend.c:428-447 | every successful grant leaves the backend busy, linked and recorded as starting |
| Runs.StartIsRecorded | src/speedy_backend_main.c:103-108 | so is every backend that a parent process starts |
| Runs.AskIsRecorded | src/speedy_frontend.c:209-219 | so is every request to the parent process, which is alive then, made only below the limit |
| Progress.GrantedExactly | src/speedy_frontend.c:288-373 | in any run, who looks for a backend is granted one exactly if nobody alive is before it, a backend of the group waits and none is starting |
| Progress.OnlyHeadAsks | src/speedy_frontend.c:271-283 | in any run, only who stands at the head of a queue asks for a backend to be started |
| Progress.WaitersProvided | src/speedy_frontend.c:302-340 | in any run, who goes on waiting has a live frontend before it, or stands at the head while a process is starting or, if it has not asked, while the group is full and its parent process lives |
| Progress.WakesUp | src/speedy_frontend.c:317-351 | in any run, a queued frontend that wakes up to nothing tries again if its group is invalid or the script has changed, gives up if it has asked in vain, and waits otherwise |
| Effects.FailureRetries | src/speedy_frontend.c:408-463 | in any run, a backend that cannot be connected to is disposed of and the frontend tries again |
| Effects.IdleAgain | src/speedy_perl.c:955-972 | in any run, a backend at the head of its loop leaves exactly if its parent process is gone or its group is invalid; else it waits, with maturity 1 before its first run and 2 after it, and has woken the first live frontend |
| Effects.AcceptedWakes | src/speedy_perl.c:983-995 | in any run, a connected backend is not starting any more and, if another one waits, has woken the first live frontend; in an invalid group it leaves |
| Effects.LastRun | src/speedy_perl.c:1006-1010 | in any run, a backend leaves after its last run, and its group is invalid then if no parent process is there to start another |
| Effects.FirstSection | src/speedy_backend_main.c:212-236 | in any run, a parent process leaves at once exactly if another one has the group; else it has the group, and starts a backend exactly if none is starting and the group is below the limit |
| Effects.StartsWhenAsked | src/speedy_backend_main.c:248-254 | in any run, a parent process starts a backend exactly if it was asked to, its group is valid, none but itself is starting, the group is below the limit and the fork succeeds |
| Effects.LeavesWhenIdle | src/speedy_backend_main.c:256-266 | in any run, a parent process leaves exactly if its alarm has come and no backend is left |
| ExitStatus.EventTold | src/speedy_backend.c:140-155 | in any event a running frontend keeps its backend process and its exit status, or loses the backend and has recorded what is said of that very process |
| ExitStatus.FinishedReports | src/speedy_perl.c:1001-1005 | after a backend has run a script its frontend has that exit status, no signal, and no backend |
| ExitStatus.CollectReports | src/speedy_backend_main.c:53-73 | what waitpid reports first of a child is what its frontend gets, whatever else is reported |
| ExitStatus.AskerFinds | src/speedy_frontend.c:45-60 | who asks is told exactly if it has no backend or the backend is dead: what is recorded, or SIGKILL |
| ExitStatus.StatusIsReported | src/speedy_main.c:387-392 | in any run, the exit status that a frontend is told was reported while it waited of the process that it was connected to: by that backend, by waitpid, or because that process was dead |
| ExitStatus.ExitStatusArrives | src/speedy_perl.c:1001-1005 | in any run, the status with which the script ended is the one that the frontend is told, however late it asks |
| ExitStatus.WaitStatusArrives | src/speedy_backend_main.c:61-69 | so is what waitpid reports of a child that has died while it served a frontend |
| Recency.EventOrder | src/speedy_backend.c:36-120 | no event lets a waiting backend overtake another, begin to wait or change its maturity, except the one that goes idle |
| Recency.MostMatureFirst | src/speedy_backend.c:36-48 | in any run, who is granted waits and is surpassed in maturity by no other that waits |
| Recency.LastInFirstOut | src/speedy_backend.c:50-91 | in any run, of two that wait, the one that went idle first is granted only if it is the more mature |
| FileLock.Handle.Attempt | src/speedy_file.c:196-245 | extends, dates, checks version and owner, and marks an unusable file removed |
| FileLock.Handle.Rounds | src/speedy_file.c:184-258 | the loop ends at the first usable file, at the latest after five |
| FileLock.Handle.Lock | src/speedy_file.c:165-263 | succeeds exactly when a file it tries is usable; then the file was complete, is its own, and has room for five slots |
| FileLock.Handle.Unlock | src/speedy_file.c:78-92 | only clears lock_owner |
| FileLock.Handle.Close | src/speedy_file.c:265-273 | looks once more at a file it holds slots in and marks it removed exactly if it is empty (or was removed) |
| FileLock.Handle.SetState | src/speedy_file.c:279-304 | the four states |
| FileLock.Handle.ForkChild | src/speedy_file.c:306-312 | the child forgets the lock and leaves lock_owner alone |
| CrashSafety.ActKeeps | src/speedy_file.c:165-273 | opening, locking, dying in a round, writing, completing a section, closing and dying keep the invariant of all files, and every process has the access state that goes with where it stands |
| CrashSafety.CompletesComes | src/speedy_frontend.c:326-455 | a section ends in one of the ways that its process goes on from, takes no room that the file has not got, and brings forth nobody but its child |
| CrashSafety.LockSeesGoodStore | src/speedy_file.c:235-262 | whoever returns from file_lock has a file that no section was left unfinished in, with room for its section; unless a stray has written there, the store and all that the processes at home there count on are as the invariant says |
| CrashSafety.GoodUnlessStray | src/speedy_file.c:224-262 | in a file that no process has strayed into, whoever locks it sees a store that satisfies the invariant |
| CrashSafety.SpoiledByStray | src/speedy_main.c:387-392 | only a process that counts on a slot of another file can have spoiled a file |
| CrashSafety.NeverUsedAgain | src/speedy_file.c:235-241 | a file on which a process died in a section is never locked for use again |
| CrashSafety.DeathAbandons | src/speedy_file.c:260-262 | a death in a section leaves lock_owner set |
| CrashSafety.RoomAtLock | src/speedy_file.c:209-218 | a section begins with room for five slots, one more than its methods ask for and than any section takes |
| CrashSafety.NeverTooSmall | src/speedy_slot.c:94-110 | the file has room for all slots, at every moment of a section, because none brings slots_alloced further than four |
| Losing.ComesHome | src/speedy_file.c:224-235 | in every run, a process that holds a slot comes back to its own file and finds the slot as it left it, unless it is a backend that has not run yet or a running frontend that has asked before |
| Losing.SameFileKept | src/speedy_file.c:224-247 | such a process gets the same file again that it had locked before |
| Losing.FreshStrays | src/speedy_backend_main.c:113-126 | a run in which a backend that has closed the file after the fork locks another one for its first section |
| Losing.AskingStrays | src/speedy_main.c:387-392 | a run in which a running frontend that asks for the exit status once more locks another file |
| Losing.ComesHomeExactly | src/speedy_file.c:224-235 | of the processes that hold a slot, exactly those of the other kinds come home in every run |
| Losing.CollectBreaks | src/speedy_frontend.c:45-60 | what asking for the exit status does to a slot of the same number that is in a queue |
| Straying.CollectGoodExactly | src/speedy_frontend.c:45-60 | for every good store and slot number, when asking for the exit status leaves the store good |
| Straying.CollectOfOther | src/speedy_frontend.c:45-60 | then the frontend whose slot it is loses it exactly if the answer is that the backend is done |
| Straying.ReadyGoodExactly | src/speedy_perl.c:953-978 | for every good store and slot numbers, when the first section of a backend leaves the store good |
| Losing.StoreLost | src/speedy_main.c:387-392 | a run in which a queued frontend, in its own file, finds its slot freed by a stray |
| Circular.GetSegs | src/speedy_circ.c:56-77 | at most two stretches, none empty, all inside the buffer |
| Circular.SegsAreRing | src/speedy_circ.c:56-81 | the segments hold exactly the data, in order |
| Circular.Circ.Scatter | src/speedy_circ.c:83-91 | bytes read into the free segments stand behind the data |
| Circular.Circ.AdjLen | src/speedy_circ.c:93-102 | bytes are added at the end or taken from the front |
| Circular.Circ.Realloc | src/speedy_circ.c:104-138 | growing in place keeps the data, whichever of its two parts is moved; what is copied by memcpy does not overlap |
| Streams.ReadRoom | src/speedy_cb.c:44-66 | a read has no room exactly when the buffer is full and could not grow |
| Streams.CopyBuf.Read | src/speedy_cb.c:44-83 | bytes that came in are at the end of the buffer; the end of file noticed is a real one unless realloc failed |
| Streams.CopyBuf.Write | src/speedy_cb.c:85-107 | bytes go out from the front, in order; after an error the rest is thrown away |
| Streams.CopyBuf.Shift | src/speedy_cb.c:109-118 | the oldest byte, as a char that may be signed, or -1 |
| CopyLoop.Channel.ReadOnce | src/speedy_main.c:310-330 | the first byte of the output goes to the protocol and never to stdout |
| CopyLoop.Channel.Pump | src/speedy_main.c:302-351 | the inner loop ends and keeps every byte in order; what can be read is asked for, what can be written is offered with the oldest bytes first, and after a read that brings bytes or the end of file a write is tried |
| CopyLoop.Pass | src/speedy_main.c:302-351 | in every turn each of the three channels is served in this way |
| CopyLoop.TakeTurn | src/speedy_main.c:299-394 | and so is it when the turn ends the loop or asks for the exit status |
| CopyLoop.AfterExit | src/speedy_main.c:353-381 | once the backend has exited the loop is left only when nothing is left that could be delivered, and it is left by the process that forks once nothing more is read; a process that leaves undone copying behind has forked one that goes on |
| CopyLoop.Copy | src/speedy_main.c:299-417 | however the turns go, when the loop is left stdout has got all that was read of the output but the protocol byte, and stderr all errors, unless writing failed; and unless it is left at the fork everything there was to read has been read, except after an error or without memory |
| Wire.StringRoundTrip | src/speedy_frontend.c:489-500 | a string reads back, at every length, 254 and 255 included |
| Wire.StringsRoundTrip | src/speedy_frontend.c:527-541 | a block of strings reads back without the empty ones |
| Wire.HeaderRoundTrip | src/speedy_perl.c:638-686 | the header reads back and what follows it is untouched |
| Wire.Buffer.Enlarge | src/speedy_frontend.c:502-509 | growing keeps what was written |
| Wire.Buffer.AddString | src/speedy_frontend.c:489-523 | adds exactly the encoding of the string |
| Wire.Buffer.AddStrings | src/speedy_frontend.c:527-541 | adds exactly the encoding of the block |
| Wire.Buffer.MakeEnv | src/speedy_frontend.c:543-581 | leaves exactly the encoding of the header |
| Wire.Input.GetString | src/speedy_perl.c:431-459 | reads one string, and NULL exactly for the length byte 0 |
| Wire.Input.GetStrings | src/speedy_perl.c:638-668 | reads strings up to the first NULL |
| Wire.ReadHeader | src/speedy_perl.c:638-720 | reads the whole header |
| Transport.RequestArrives | src/speedy_main.c:197-210 | whatever the sizes of reads and writes, the backend decodes what was encoded, and then a prefix of stdin |
| Argv.SplitShape | src/speedy_opt.c:146-204 | what splitting gives: single dashed words, and no option at the head of the script arguments |
| Argv.NoWordLost | src/speedy_opt.c:182-188 | the perl words, the first "--", the options and what is left are the words of the argument |
| Argv.NoneLost | src/speedy_opt.c:146-204 | no word of a command line is lost |
| Argv.OptionsApart | src/speedy_opt.c:159-188 | an argument of several options is split as if each were an argument of its own |
| Argv.WordsApart | src/speedy_opt.c:119-139 | a white space separates the words before it from those after it |
| Argv.AssembleSplits | src/speedy_opt.c:146-204 | parts put together split back exactly when they are of that shape |
| Argv.ExecArgvRoundTrip | src/speedy_opt.c:287-346 | for every command line, exactly when the backend splits exec_argv into what the frontend put there |
| Argv.StrList.SplitInto | src/speedy_opt.c:119-139 | the cursor loop gives the words between white space |
| Argv.StrList.Append | src/speedy_opt.c:74-95 | the growing list |
| Argv.CmdlineSplit | src/speedy_opt.c:146-204 | the loops over arguments and words give the three lists (see Argv.NoneLost and Argv.OptionsApart) |
| Argv.ExecArgv | src/speedy_opt.c:327-338 | the assembly of exec_argv |
| SigMask.Signals.Lock | src/speedy_file.c:259-262 | everything is blocked once the file is locked, nothing is delivered, and the mask beneath is kept |
| SigMask.Signals.Unlock | src/speedy_file.c:78-92 | lock_owner goes first, then the mask beneath is put back and what has come meanwhile is delivered |
| SigMask.Signals.Init | src/speedy_sig.c:78-112 | under the lock the saved mask is changed in place of the real one |
| SigMask.Signals.WaitBasic | src/speedy_sig.c:63-66 | the wait goes on until a signal of the list is delivered, which is at once if one is pending; only the mask for the wait and the one from before are in force |
| SigMask.Signals.Free | src/speedy_sig.c:126-157 | no signal of the list is left pending and the mask from before is put back; the mask is opened under the lock exactly if the process has the lock and a signal of the list is pending, and then what is delivered first may be any other signal that is not in that mask |
| SigMask.Rounds | src/speedy_frontend.c:302-340 | in any rounds of unlocking, waiting and locking, whatever signals come, everything is blocked and nothing delivered while the process has the lock |
| SigMask.FrontendUse | src/speedy_frontend.c:288-351 | from the first lock to the last unlock the mask is open under the lock exactly if SIGALRM is pending at the teardown; afterwards it is the one from before the first lock |
| SigMask.FrontendFork | src/speedy_frontend.c:118-143 | a forked child has the mask from before the lock at the exec, and never has the lock |
| SigMask.ParentUse | src/speedy_backend_main.c:113-126 | neither a parent process nor the backend it forks, which locks the file once more to close it, opens the mask under the lock; the backend has the mask from before |
| SigMask.AcceptUse | src/speedy_perl.c:412-428 | a backend that has accepted waits for no signal when it takes its handlers down |
| SigMask.TerminatedUnderLock | src/speedy_sig.c:133-151 | SIGTERM is delivered to a frontend that has the lock |
| SigMask.Received.Handle | src/speedy_sig.c:43-61 | a signal is listed once |
| SigMask.Wait | src/speedy_sig.c:63-76 | after a wait the table lists exactly the signals that came |

## Left out

- FileLock.Handle.Lock: file_lock closes the file from time to time to open it anew, and when TmpBase has changed; here that is a call with no file open.
- FileLock.Handle.Close: `unlink` goes by name, so it may remove a newer file; only CrashSafety has the path.
- CrashSafety.LockSeesGoodStore: does not promise a good store in a file that a stray has written in, because the code does not (`Losing.StoreLost`).
- What a stray reads and writes, slot by slot: in C a slot of the wrong kind is raw memory, and a slot number that is free or not handed out ends the process; in `CrashSafety` what comes of it is arbitrary, in `Straying` a slot of the wrong kind reads as a blank one.
- TempFile.File.Request: one request is one section; the loop of speedy_frontend_connect around failed connections is the frontend's next request event.
- Wire.ReadHeader: the decoder does not look at the count of bytes it got, and takes any int for a length; a stream that ends too early, or says a negative length, is simply no header here.
- Wire.Input.GetString: the same.
- SigMask.Signals.Free: sigpending does not fail, and only signals that can be blocked come.
- Memory.Mapped.SlotAlloc: the two aborts of slot_alloc are those of `SlotLinks.Links.Alloc`; here they are excluded by what is required.
- Liveness: that every request is served in the end. A granted backend may time out in the same moment.
- Different MaxBackends values in one group, and more than one temp file in one run of `Protocol`.
- Which signal is sent for what, alarms and timeouts: a process may wake up at any time.
- Sockets, mmap, poll, descriptors and their flags: what they report is arbitrary.
- The Perl interpreter, script loading, changing directory, the second part of the protocol.
- Option values, the #! line, the environment options: only the command line is split.
- Strings of the environment without '=', which the backend reads and ignores.
- The Apache modules, the build and the dump tools.
