# Verified models of five SST elements

This project models, in Dafny, the discrete-time state machines of five components of the
Structural Simulation Toolkit's element library, and proves what they guarantee over whole
runs. `dafny verify dfyconfig.toml` checks everything.

Each component comes in two layers. Values and functions say what a step does; lemmas prove
properties of all runs of these functions. Classes with the program's own fields, loops and
in-place updates are proved to take exactly those steps, so the lemmas hold for them too.

- **CramSim, DRAM controller pipeline.** `dram_types`, `dram_bank` and `dram_device` hold
  banks, their states and the trace of accepted commands; `dram_timing` proves the spacing of
  all command pairs, `dram_ready` the exact cycle in which a bank is ready again; `dram_driver` is the device driver with queue, buses, refresh and the
  four-activate trackers, `dram_faw` and `dram_safety` prove what it asserts; `dram_rows`,
  `dram_rowrun` and `dram_rowscan` prove row correctness, `dram_flow` that column commands are
  done once and in order, `dram_refresh` and `dram_refrun` that refreshes are carried out whole
  and when they are lost, `dram_bus` when the data-bus assertion holds and `dram_clash` what its
  failing means; `dram_lanes`, `dram_bustime` and `dram_greedy` prove that no two commands meet on a
  command bus and that none waits without a reason; `dram_pipeline`
  and `dram_endtoend` put converter, command queues and driver together, and `dram_order` proves
  that each bank performs its transactions in the order given; `dram_package` and `dram_pseudo` say
  what the converter makes of them, `dram_first` how soon the first one is there. `bank_info`, `device_driver` and
  `controller` are the objects. `txn_scheduler` and `responses` with `responses_cause`, and their objects, are the stages
  before and after, and `txn_policy` says which request leaves; `dram_system` runs scheduler and pipeline together, and `dram_tree` builds the
  bank tree from its counts, in which `dram_relations` finds two banks' relation by their addresses. `dram_settle`, `dram_firm`, `dram_live` and `dram_served` prove that
  without refresh everything is served in the end.
- **CramSim, address hasher.** `address_bits`, `address_map`, `address_fields`, `address_hasher`.
- **GNA, spiking engine.** `gna` holds the engine and the synchronous network, `gna_refine` and
  `gna_run` the refinement and progress proofs, `gna_neuron` what the neurons do over a run,
  `gna_width` how much is done per clock, `gna_object` the object.
- **Samba, TLB and page faults; Opal, frame pools.** `samba_lru` and `samba_buffer` (replacement),
  `samba_misses`, `samba_times` and `samba_unit` (miss handling), `samba_tlb` and `samba_recent` (both
  together), `samba_faults`, `samba_frames` and `samba_walker` (page table), `opal` and `opal_object` (frames).
- **Messier, NVM issue logic.** `messier`, `nvm_dimm`, `write_buffer`.

Reading guide for the DRAM part: a bank's *floor* for a command kind is a lower bound on the
cycle at which the bank, left to itself, can accept it. No step lowers a floor and every accepted
command raises those it constrains, so any two commands keep their spacing whatever comes in
between. Row correctness rests on a small open/closed automaton over command streams: for each
bank, the commands queued in the driver and in the scheduler must run through it without error
from the row the bank has and end where the converter believes the row to be. A refresh may close
a bank at any time; the relation survives because an ACT is put in front of a leading column
command, or because the command scheduler asks for one later.

Findings:

- The same-bank spacing needs no lower bounds on nRP, nRFC or nCCD_L: where the "-2"
  compensations wrap around, banks only wait longer.
- A precharge accepted by a bank in the write state begins in the next cycle only if 2 nWR - 2
  cycles have passed since the write; otherwise the write state holds it back, although its
  own earliest cycle has come (`PrechargeOnTimeExactly`).
- The data-bus assertion holds in all runs exactly if min(nBL, max(nCCD_L, nCCD_S)) exceeds
  neither max(1, nCCD_L) nor max(3, nRCD + 1) (`BusParamsExactly`).
- Without refresh every request taken is served, exactly if a command queue holds at least three
  commands (`EveryRequestServed`, `SmallQueuesServeNothing`).
- A converter package has at most three commands for every close time, zero included.
- Row-hit-first selection takes the last issuable request when none hits an open row, so in
  read-first mode two writes to one address can swap. Same-address order is kept exactly by the
  other configurations and by queues of one entry (`OrderKeptExactly`, `WritesSwap`).
- An input neuron whose spike times do not increase sends the late ones one step after each
  other; all go out on time exactly if the times increase (`OnTimeExactly`).
- Building the address layout never ends exactly for maps that start with colons and digits in
  front of nothing or of an acceptable map, such as ":3" (`HangsExactly`, `HangExample`).
- Refresh commands occupy the bus of another channel exactly when there is more than one channel
  and more than one pseudo channel in each (`RefreshBusExactly`).
- A refresh that is not sent before the next one is due is lost; all are carried out exactly if
  none is still queued when the next is due (`RefreshBalance`, `CarriedOutExactly`). Refreshes
  that take longer than a bank's round are lost in every run (`CannotKeepUp`, `TwoBanksLose`).
- The Samba dispatch loop passes over the successor of every removed entry
  (`SuccessorIsPassedOver`), so at best every second entry leaves in a clock
  (`EverySecondIsServed`).
- A page fault can make Opal index a shared pool that does not exist: with shared pools a root
  fault, without any also others. `ProcessKeeps` says exactly when; `TrapIsReached` and
  `TrapWithoutShared` are runs that get there.
- Erasing a buffered write hides another one to the same line from look-up (`WriteIsHidden`), and
  that is the only way a buffered write is ever hidden (`AlwaysFoundExactly`).
- A Messier operation that takes no time is never retired (`ZeroTimeIsNeverRetired`). The power
  budget holds all the same; the counters are right exactly if operations take time
  (`CountersExactly`).

Parameters are 32-bit unsigned numbers; subtractions that can wrap in the source wrap here too.
Cycle counts and addresses are assumed not to exceed 64 bits.

## Model

| member | source | states |
|---|---|---|
| BankInfoObject.BankInfo.constructor | src/sst/elements/CramSim/c_BankInfo.cpp:51-60 | a new bank is idle, with no row open and all cycle tables at zero |
| BankInfoObject.BankInfo.HandleCommand | src/sst/elements/CramSim/c_BankStateRead.cpp:62-99 | the state stores the command and its cycle; idle restarts its timer at 1; rows, timers and earliest cycles stay |
| BankInfoObject.BankInfo.ClockTic | src/sst/elements/CramSim/c_BankInfo.cpp:149-155 | one clock of a bank in every state: countdowns, hand-overs and what entering the next state does to row and tables |
| BankInfoObject.BankInfo.TickIdle | src/sst/elements/CramSim/c_BankStateIdle.cpp:90-126 | the idle countdown with its wrap-around, and the hand-over to activating, refresh or precharge |
| BankInfoObject.BankInfo.EnterIdle | src/sst/elements/CramSim/c_BankStateIdle.cpp:129-161 | entering idle closes the row and holds ACT, REF and PRE back to this cycle |
| BankInfoObject.BankInfo.EnterActivating | src/sst/elements/CramSim/c_BankStateActivating.cpp:78-99 | the ACT's row becomes the open row |
| BankInfoObject.BankInfo.EnterActive | src/sst/elements/CramSim/c_BankStateActive.cpp:123-183 | column commands wait for nRCD less the two cycles already spent; a precharge for nRAS, nWR and nRTP |
| BankInfoObject.BankInfo.EnterReading | src/sst/elements/CramSim/c_BankStateRead.cpp:169-249 | the spacing of a read to reads, writes and the precharge |
| BankInfoObject.BankInfo.TickReading | src/sst/elements/CramSim/c_BankStateRead.cpp:101-167 | the read state's two countdowns and its hand-over, none for an auto-precharge command |
| BankInfoObject.BankInfo.EnterWriting | src/sst/elements/CramSim/c_BankStateWrite.cpp:184-264 | the spacing of a write to reads, writes and the precharge, write recovery included |
| BankInfoObject.BankInfo.TickWriting | src/sst/elements/CramSim/c_BankStateWrite.cpp:102-182 | the write state's two countdowns and its hand-over |
| BankInfoObject.BankInfo.EnterReadingA | src/sst/elements/CramSim/c_BankStateReadA.cpp:105-170 | every earliest cycle is the read state's, less one |
| BankInfoObject.BankInfo.EnterWritingA | src/sst/elements/CramSim/c_BankStateWriteA.cpp:97-163 | the auto-precharging write's earliest cycles, some lower than before |
| BankInfoObject.BankInfo.TickReadingA | src/sst/elements/CramSim/c_BankStateReadA.cpp:69-103 | the two countdowns of the auto-precharging read, which starts precharging by itself |
| BankInfoObject.BankInfo.TickWritingA | src/sst/elements/CramSim/c_BankStateWriteA.cpp:68-95 | the two countdowns of the auto-precharging write, which starts precharging by itself |
| BankInfoObject.BankInfo.EnterPrecharging | src/sst/elements/CramSim/c_BankStatePrecharge.cpp:82-100 | precharging closes the row and counts nRP less two; what that means for the next command is `DramReady.ReadyAfterPre` |
| BankInfoObject.BankInfo.EnterRefreshing | src/sst/elements/CramSim/c_BankStateRefresh.cpp:92-114 | refreshing counts nRFC less two and moves the next refresh on by nREFI |
| BankInfoObject.BankInfo.Postpone | src/sst/elements/CramSim/c_BankGroup.cpp:83-181 | what a command on another bank of the group, rank or channel does to this bank's earliest cycles |
| BankInfoObject.BankInfo.PostponeColumns | src/sst/elements/CramSim/c_Rank.cpp:94-196 | read-to-read, read-to-write, write-to-read and write-to-write spacing, reads and writes each kept equal with their auto-precharge kinds |
| DramTiming.EveryRunIsSpaced | src/sst/elements/CramSim/c_BankStateActive.cpp:123-183 | in every run without auto-precharge any two accepted commands, adjacent or not, keep the spacing for their kinds and the relation of their banks: nRCD, nRAS, nRTP, nCWL+nBL+nWR, nRP, nRFC, nRAS+nRP on one bank; nRRD, nCCD, turnaround and rank-switch gaps across banks |
| DramTiming.TickRaisesFloor | src/sst/elements/CramSim/c_BankInfo.cpp:149-155 | left to itself a bank never becomes ready earlier than it was bound to be |
| DramTiming.HandleRaisesFloor | src/sst/elements/CramSim/c_BankInfo.cpp:137-147 | a command accepted now bounds every later command on its bank by the full spacing, states still to be passed included |
| DramTiming.PushRaisesFloor | src/sst/elements/CramSim/c_Channel.cpp:91-199 | a command on a related bank only raises the bounds, and by the coded gap, also where unsigned subtraction wraps |
| DramTiming.SpacedExtends | src/sst/elements/CramSim/c_BankInfo.cpp:161-175 | a bank that accepts a command has outlived the bounds of all earlier commands |
| DramReady.EveryBankIsSound | src/sst/elements/CramSim/c_BankInfo.cpp:137-155 | in every run no command lies in a bank's future, exit countdowns run only while a command is held, and an accessed row may be precharged no sooner than the access allows |
| DramReady.ReadyAfterPre | src/sst/elements/CramSim/c_BankStatePrecharge.cpp:71-100 | a bank left to itself after a precharge at t accepts an ACT, REF or PRE in cycle m if and only if the precharge is over, counted from the cycle in which the open state lets go, and the command's own cycle has come |
| DramReady.PrechargeOnTimeExactly | src/sst/elements/CramSim/c_BankStateWrite.cpp:146-172 | with its timer run out a bank begins the precharge in the next cycle if and only if it is not in the write state within 2 nWR - 2 cycles of the write |
| DramReady.ActAfterPre | src/sst/elements/CramSim/c_BankStatePrecharge.cpp:82-100 | then the next ACT is accepted in cycle m if and only if m is at least max(t + nRP, its own cycle) |
| DramReady.ReadyAfterRef | src/sst/elements/CramSim/c_BankStateRefresh.cpp:60-114 | after a REF at t an ACT or PRE is accepted in cycle m if and only if nRFC cycles have passed and its own cycle has come, a REF also only when the refresh interval is over |
| DramReady.ReadyAfterAct | src/sst/elements/CramSim/c_BankStateActive.cpp:123-183 | after an ACT at t column commands are accepted exactly from max(t + 2, t + nRCD, their own cycle) on, a precharge when nRAS and the earlier accesses have settled, and the row of the ACT is the one open |
| DramReady.LeavesOpen | src/sst/elements/CramSim/c_BankStateRead.cpp:101-167 | a bank with an open row leaves its state for the command it has taken exactly in the cycle given by its timers and by read-to-write, write-to-read and precharge recovery |
| DramReady.ReadyAfterCol | src/sst/elements/CramSim/c_BankStateWrite.cpp:102-264 | after a read or write at t a column command or precharge is accepted in cycle m if and only if the old state has let go, the coded spacing has passed and the command's own cycle has come |
| DramReady.BankAfterAct | src/sst/elements/CramSim/c_BankStateActive.cpp:123-183 | from two cycles after an ACT until its next command the bank is in the active state with nCCD_L - 2 cycles counted down, and its row open |
| DramReady.BankAfterCol | src/sst/elements/CramSim/c_BankStateWrite.cpp:184-264 | from the cycle in which it enters the read or write state until its next command the bank counts down the longer of burst and column spacing, one cycle less after a read |
| DramReady.AutoInAccessStops | src/sst/elements/CramSim/c_BankStateRead.cpp:101-167 | an auto-precharging access taken in the read or write state ends the simulation: the bank holds it and accepts nothing any more |
| DramReady.ReadyAfterAuto | src/sst/elements/CramSim/c_BankStateReadA.cpp:69-170 | after an auto-precharging access at t an ACT, REF or PRE is accepted in cycle m if and only if the precharge the bank begins by itself is over and the command's own cycle has come |
| DramReady.PushedExactly | src/sst/elements/CramSim/c_Channel.cpp:91-199 | a command on a related bank moves the earliest cycles exactly to the coded spacing unless they lie later, and leaves everything else alone |
| DeviceDriverObject.DeviceDriver.constructor | src/sst/elements/CramSim/c_DeviceDriver.cpp:72-385 | the bank tree is connected from the five counts, and the driver starts on it with idle banks, free buses, empty queues, cleared trackers and staggered refresh counters |
| DeviceDriverObject.Attach | src/sst/elements/CramSim/c_DeviceDriver.cpp:311-332 | each member of a level takes its share of the next level, in order |
| DeviceDriverObject.ListBanks | src/sst/elements/CramSim/c_Rank.cpp:82-92 | the banks of a rank, group after group |
| DeviceDriverObject.BuildTree | src/sst/elements/CramSim/c_DeviceDriver.cpp:277-334 | the loops over channels, ranks, groups and banks give the regular tree of the five counts |
| DramTree.TreeIsValid | src/sst/elements/CramSim/c_DeviceDriver.cpp:277-334 | every tree built from positive counts meets all that the driver's results ask of a topology |
| DramTree.BankOfRank | src/sst/elements/CramSim/c_Rank.cpp:82-92 | every bank listed for a rank is in the tree and in that rank |
| DramTree.RankListsItsBanks | src/sst/elements/CramSim/c_Rank.cpp:82-92 | a bank is listed for a rank if and only if it is in that rank |
| DramTree.DecodedPlace | src/sst/elements/CramSim/c_AddressHasher.cpp:399-411 | a decoded address within the counts names a bank of the tree, and its rank id and channel are that bank's rank and command bus |
| DramTree.RefreshBusExactly | src/sst/elements/CramSim/c_DeviceDriver.cpp:971-978 | refresh commands occupy their own channel's bus exactly if there is one channel or one pseudo channel in each |
| DramRelations.PlaceByDigits | src/sst/elements/CramSim/c_AddressHasher.cpp:416-450 | a bank id's group, rank and pseudo channel in the tree are those of its decoded numbers |
| DramRelations.RelationByDigits | src/sst/elements/CramSim/c_BankGroup.cpp:83-181 | two banks are spaced as banks of one group exactly if all but their bank numbers agree, as banks of one rank if channel, pseudo channel and rank do, as banks of one channel if channel and pseudo channel do, the closest relation counting |
| DeviceDriverObject.DeviceDriver.Update | src/sst/elements/CramSim/c_DeviceDriver.cpp:457-482 | per clock every bank ticks, each tracker shifts by one cycle, and the marks and buses of the last clock are released |
| DeviceDriverObject.DeviceDriver.ShiftTrackers | src/sst/elements/CramSim/c_DeviceDriver.cpp:467-471 | each rank's tracker drops its oldest cycle and takes in whether an ACT was sent |
| DeviceDriverObject.DeviceDriver.ReleaseBuses | src/sst/elements/CramSim/c_DeviceDriver.cpp:795-805 | every occupied command bus has one cycle less to go |
| DeviceDriverObject.DeviceDriver.OccupyBus | src/sst/elements/CramSim/c_DeviceDriver.cpp:751-790 | which buses a command occupies and for how long; reports whether none is left |
| DeviceDriverObject.DeviceDriver.SendCommand | src/sst/elements/CramSim/c_DeviceDriver.cpp:814-877 | accepted exactly when the bank allows it; then the bank stores it and all related banks are postponed |
| DeviceDriverObject.DeviceDriver.UpdateOtherBanks | src/sst/elements/CramSim/c_BankGroup.cpp:83-181 | every bank related to the addressed one is postponed once, all others are unchanged |
| DeviceDriverObject.DeviceDriver.IsCmdAllowed | src/sst/elements/CramSim/c_DeviceDriver.cpp:492-542 | refused during the rank's refresh; a column command for a closed bank queues one ACT for its row; otherwise bus and bank decide |
| DeviceDriverObject.DeviceDriver.PushCmd | src/sst/elements/CramSim/c_DeviceDriver.cpp:934-944 | accepted below 32 entries, then last in the queue and occupying its bus |
| DeviceDriverObject.DeviceDriver.CreateRefreshCmds | src/sst/elements/CramSim/c_DeviceDriver.cpp:952-1036 | the rank's refresh queue becomes a precharge of the open banks, if any, and a refresh of the requesters, and column commands first in line get an ACT in front |
| DeviceDriverObject.DeviceDriver.ReinsertFor | src/sst/elements/CramSim/c_DeviceDriver.cpp:1016-1035 | an ACT goes in front exactly if the bank's first queued command is a column command |
| DeviceDriverObject.DeviceDriver.SendRefresh | src/sst/elements/CramSim/c_DeviceDriver.cpp:677-726 | the head of the refresh queue goes to all its banks if all are ready and the bus is free, else to none |
| DeviceDriverObject.DeviceDriver.CountActs | src/sst/elements/CramSim/c_DeviceDriver.cpp:917-927 | the ACTs counted in a rank's tracker |
| DeviceDriverObject.DeviceDriver.ScanEntry | src/sst/elements/CramSim/c_DeviceDriver.cpp:571-668 | one queue entry: passed over, ending the scan, kept, dropped as a superfluous precharge, or sent; which of these is right is `DramBusTime.HeadLeavesExactly`, `DramLanes.CommandsOfACycle` and `DramGreedy.NothingWaitsIdly` |
| DeviceDriverObject.DeviceDriver.MarkEntry | src/sst/elements/CramSim/c_DeviceDriver.cpp:586-616 | a command may proceed if its bank was not served yet, it is no fifth ACT, and no write of this clock has its address |
| DeviceDriverObject.DeviceDriver.Record | src/sst/elements/CramSim/c_DeviceDriver.cpp:639-658 | the two assertions on data bus and ACTs and what they remember |
| DeviceDriverObject.DeviceDriver.SendRequest | src/sst/elements/CramSim/c_DeviceDriver.cpp:560-669 | the whole scan of the input queue, its ACT counts taken once before it |
| DeviceDriverObject.DeviceDriver.Run | src/sst/elements/CramSim/c_DeviceDriver.cpp:403-452 | buses released, every rank's refresh served, then the queue scanned |
| DramFaw.FawSendAct | src/sst/elements/CramSim/c_DeviceDriver.cpp:653-658 | an ACT below the limit was the rank's first in this cycle, keeps every window of nFAW cycles within four ACTs, and bars a second one in the cycle |
| DramFaw.FawShift | src/sst/elements/CramSim/c_DeviceDriver.cpp:467-471 | shifting a tracker keeps it equal to the ACTs of the trace in its cycles |
| DramFaw.TrackerSum | src/sst/elements/CramSim/c_DeviceDriver.cpp:917-927 | the sum of a tracker is the number of ACTs of the trace in the cycles it covers |
| DramFaw.ActWindows | src/sst/elements/CramSim/c_DeviceDriver.cpp:598-601 | with fewer than four ACTs tracked every window that reaches the present has room for one more |
| DramSafety.DataBusRespected | src/sst/elements/CramSim/c_DeviceDriver.cpp:639-651 | a column command like the last one on its channel comes at least min(nBL, max(nCCD_L, nCCD_S)) after it, given that two accesses to one bank do and that the first column command cannot come earlier than that |
| DramSafety.EveryDriverRunIsSafe | src/sst/elements/CramSim/c_DeviceDriver.cpp:403-482 | for every stream of calls, refresh on or off: at most four ACTs per rank in any nFAW cycles, at most one per cycle, the ACT assertion never fails, and without auto-precharge all spacing holds and the data-bus assertion never fails |
| DramBus.BusParamsExactly | src/sst/elements/CramSim/c_DeviceDriver.cpp:639-651 | the data-bus assertion holds in every run without auto-precharge, on every tree, if and only if min(nBL, max(nCCD_L, nCCD_S)) exceeds neither max(1, nCCD_L) nor max(3, nRCD + 1) |
| DramBus.ReadInCycle | src/sst/elements/CramSim/c_DeviceDriver.cpp:639-651 | an ACT in cycle 1 and a read in any cycle from the first possible one on, which fails the assertion if that cycle is below the gap |
| DramBus.ReadTwice | src/sst/elements/CramSim/c_DeviceDriver.cpp:639-651 | two reads of one bank as close as it takes them fail the assertion if the bank's own spacing is below the gap |
| DramLanes.CommandsOfACycle | src/sst/elements/CramSim/c_DeviceDriver.cpp:751-790 | in every run any two commands accepted in one cycle came over different buses or, with the dual bus, one over the row and one over the column wires, unless they are two banks of one refresh command; and behind a write no command of its cycle goes to its address |
| DramLanes.SentByWhom | src/sst/elements/CramSim/c_DeviceDriver.cpp:677-726 | the refresh phase sends precharges and refreshes only, the scan never a refresh, and with refresh off everything comes from the scan |
| DramBusTime.FreeWhenAsked | src/sst/elements/CramSim/c_DeviceDriver.cpp:751-805 | in every run, when a clock's commands are asked for, a bus is free unless a two-cycle ACT went over it in the clock before and a row command asks |
| DramBusTime.FreeWhenRun | src/sst/elements/CramSim/c_DeviceDriver.cpp:934-944 | when the driver's own run begins a bus is free unless the last row command pushed for it in this clock is a two-cycle ACT and a row command asks |
| DramBusTime.ActWaitsAClock | src/sst/elements/CramSim/c_DeviceDriver.cpp:751-790 | after the push of a two-cycle ACT no row command leaves over its bus in that clock, the ACT itself included, unless another row command is pushed for the bus later in the clock |
| DramBusTime.FreeAfterRefresh | src/sst/elements/CramSim/c_DeviceDriver.cpp:677-726 | the refresh phase leaves a bus free exactly if it was free before and no refresh command of this clock went over it |
| DramBusTime.HeadLeavesExactly | src/sst/elements/CramSim/c_DeviceDriver.cpp:571-668 | in every clock of every run the first command of the input queue leaves if and only if its rank is not refreshing, it is no fifth ACT, its bus is taken neither by a two-cycle ACT just pushed nor by a refresh of this clock, and its bank takes it; otherwise no command leaves for its bank |
| DramBusTime.MovedApart | src/sst/elements/CramSim/c_CmdScheduler.cpp:95-133 | of the commands moved to the driver in one clock no two need the same wires; each found its wires free when the clock's visits began, and its bank ready |
| DramGreedy.NothingWaitsIdly | src/sst/elements/CramSim/c_DeviceDriver.cpp:560-669 | in every clock of every run the first queued command of a bank whose rank is not refreshing leaves, unless it is a precharge for a closed bank or a fifth ACT, a command of this clock or a two-cycle ACT just pushed has its wires, or its bank does not accept it |
| DramGreedy.AskingQueuesTheAct | src/sst/elements/CramSim/c_DeviceDriver.cpp:492-542 | asking changes nothing, unless a column command finds its bank closed, its rank not refreshing and no ACT queued for it: then an ACT for its row and address joins the queue |
| DramGreedy.HeadMovesExactly | src/sst/elements/CramSim/c_CmdScheduler.cpp:105-120 | the head of a command queue moves to the driver if and only if its rank is not refreshing, a column command finds its bank not closed, its wires were free when the visits began and no command moved since needs them, its bank takes it, and the driver holds fewer than 32 commands |
| DramGreedy.RefreshGoesExactly | src/sst/elements/CramSim/c_DeviceDriver.cpp:677-726 | in every clock of every run a rank's refresh command goes out if and only if all its banks accept it in this cycle, and its bus is taken neither by a two-cycle ACT just pushed nor by the refresh of an earlier rank |
| DramClash.AssertionsExactly | src/sst/elements/CramSim/c_DeviceDriver.cpp:639-658 | in every run, with any parameters, the ACT assertion has failed exactly if two ACTs of one rank share a cycle, and the data-bus assertion exactly if a column command follows the last one, of the same kind and channel, too soon |
| DramRows.TickRow | src/sst/elements/CramSim/c_BankInfo.cpp:149-155 | a clock never changes the row a bank has open or is bound to open, and never reaches the fatal branch of the read and write states |
| DramRows.HandleRow | src/sst/elements/CramSim/c_BankStateActive.cpp:67-107 | an accepted command moves the open/closed automaton as its kind says, and a column command finds its own row open |
| DramRows.RowAccept | src/sst/elements/CramSim/c_DeviceDriver.cpp:571-668 | the first queued command is legal for the row the bank has, and the rest stays legal after it |
| DramRows.RowRefreshed | src/sst/elements/CramSim/c_DeviceDriver.cpp:952-1036 | a refresh may close a bank under its queued commands as long as none of them that comes first needs the row |
| DramRows.RowReactivated | src/sst/elements/CramSim/c_DeviceDriver.cpp:502-519 | a column command waiting for a closed bank means nothing is queued for that bank, and the ACT put in makes the stream legal again |
| DramRowRun.CmdAllowedRows | src/sst/elements/CramSim/c_DeviceDriver.cpp:492-542 | asking leaves every bank's queues consistent with its row |
| DramRowRun.PushRows | src/sst/elements/CramSim/c_CmdScheduler.cpp:110-118 | moving a command to the driver leaves them consistent |
| DramRowRun.SendRefreshRows | src/sst/elements/CramSim/c_DeviceDriver.cpp:677-726 | so does sending a refresh command to its banks |
| DramRowScan.ReinsertOnBank | src/sst/elements/CramSim/c_DeviceDriver.cpp:1016-1035 | creating a refresh changes a bank's queue only by one ACT before a leading column command of a refreshed bank, and leaves none of them leading |
| DramRowScan.IssueRows | src/sst/elements/CramSim/c_DeviceDriver.cpp:632-664 | a command sent is the first queued for its bank, and queues and rows stay consistent |
| DramRowScan.DropRows | src/sst/elements/CramSim/c_DeviceDriver.cpp:620-630 | dropping a precharge for a closed bank changes no row |
| DramRowScan.RunRows | src/sst/elements/CramSim/c_DeviceDriver.cpp:403-452 | a whole driver run keeps every bank's relation between open row, queues and converter |
| DramRowScan.SendEachAtomic | src/sst/elements/CramSim/c_DeviceDriver.cpp:686-716 | when all listed banks are ready each handles the refresh command in this very cycle and no other bank changes |
| DramRowScan.SendEachTrace | src/sst/elements/CramSim/c_DeviceDriver.cpp:701-716 | the trace then has one event per listed bank, in order, all in this cycle |
| DramRefresh.SendShape | src/sst/elements/CramSim/c_DeviceDriver.cpp:677-726 | a refresh queue runs empty only by a REF in one cycle to all the banks of its latest refresh: the whole rank, or the one bank whose turn it is; precharges come before it |
| DramRefresh.RefreshIsWhole | src/sst/elements/CramSim/c_DeviceDriver.cpp:410-423 | a rank's refresh ends in a clock only with one REF event of that cycle for each bank of the rank or, with single-bank refresh, for the bank before the next in line; a refresh created in this clock is for the bank next in line |
| DramRefresh.EveryRefreshIsWhole | src/sst/elements/CramSim/c_DeviceDriver.cpp:403-452 | in every run each rank's queue holds nothing or a whole refresh of those banks, whatever is asked, pushed and scanned |
| DramRefresh.RefreshSchedule | src/sst/elements/CramSim/c_DeviceDriver.cpp:410-423 | in every run refreshes of rank r are created after nREFI / (r + 1) clocks and then every nREFI + 1, and the k-th single-bank refresh is for bank k modulo the rank's banks |
| DramRefresh.RankClock | src/sst/elements/CramSim/c_DeviceDriver.cpp:957-964 | a clock counts a rank down, or creates its refresh and moves its round on by one bank, whatever the other ranks and the queue do |
| DramRefresh.OverdueIsDropped | src/sst/elements/CramSim/c_DeviceDriver.cpp:982-982 | in the clock in which the next single-bank refresh is due, the one still queued is given up: no command queued is for its bank any more |
| DramRefreshRun.EveryClockWholeOrNone | src/sst/elements/CramSim/c_DeviceDriver.cpp:403-452 | in every clock of every run a rank's latest refresh is carried out, with one REF for each of its banks in order, and its queue runs empty; or the banks of the rank see no REF at all |
| DramRefreshRun.RefreshBalance | src/sst/elements/CramSim/c_DeviceDriver.cpp:410-423 | in every run, single-bank or all-bank, the refreshes created are those carried out whole, those lost because the next was due, and the one still queued |
| DramRefreshRun.CarriedOutExactly | src/sst/elements/CramSim/c_DeviceDriver.cpp:410-423 | in a run all refreshes before the one queued are carried out if and only if no clock begins with a refresh queued and the next one due |
| DramRefreshRun.StaysRefreshing | src/sst/elements/CramSim/c_BankStateRefresh.cpp:60-114 | a bank that has taken a REF is refreshing, and takes no command, for the coded number of clocks, whatever is asked or scanned |
| DramRefreshRun.CannotKeepUp | src/sst/elements/CramSim/c_DeviceDriver.cpp:952-1036 | if a bank is still refreshing when its next turn is over, refreshes are lost in every run that gets there, whatever else is going on |
| DramRefreshRun.TwoBanksLose | src/sst/elements/CramSim/c_DeviceDriver.cpp:982-982 | such a run: two banks in turn, a refresh due in every clock and taking ten, lose one within four clocks |
| DramFlow.LeaveFlow | src/sst/elements/CramSim/c_DeviceDriver.cpp:571-668 | a command leaves the queue into the trace, or dropped if a precharge: per bank the column commands done and queued stay the same sequence |
| DramFlow.RunFlow | src/sst/elements/CramSim/c_DeviceDriver.cpp:403-452 | within a driver run no column command is lost, repeated or overtaken on its bank |
| ControllerObject.TxnConverter.GetPreCommands | src/sst/elements/CramSim/c_TxnConverter.cpp:206-247 | the commands that open the row, numbered on from the counter; opening restarts the close timer |
| ControllerObject.TxnConverter.GetPostCommands | src/sst/elements/CramSim/c_TxnConverter.cpp:250-314 | the column command and, where the policy closes the row, its precharge |
| ControllerObject.TxnConverter.UpdateBankInfo | src/sst/elements/CramSim/c_TxnConverter.cpp:317-346 | the converter's record of the bank after the transaction |
| ControllerObject.TxnConverter.PushPackage | src/sst/elements/CramSim/c_TxnConverter.cpp:138-144 | all commands of a package are pushed in order; the assertion on the pushes fails exactly if they do not fit |
| ControllerObject.TxnConverter.Run | src/sst/elements/CramSim/c_TxnConverter.cpp:126-161 | transactions with room are converted in order, the others kept in order; open rows of the pseudo-open policy age |
| ControllerObject.CmdScheduler.Push | src/sst/elements/CramSim/c_CmdScheduler.cpp:136-146 | accepted exactly below the limit, then last in its bank's queue |
| ControllerObject.CmdScheduler.VisitQueue | src/sst/elements/CramSim/c_CmdScheduler.cpp:105-120 | the head of a queue goes to the driver exactly if that allows and takes it |
| ControllerObject.CmdScheduler.Run | src/sst/elements/CramSim/c_CmdScheduler.cpp:95-133 | every channel's queues are visited once, round robin |
| ControllerObject.EveryQueueIsVisited | src/sst/elements/CramSim/c_CmdScheduler.cpp:101-132 | wherever the rounds start, no queue is left out in a clock |
| ControllerObject.Controller.ClockTic | src/sst/elements/CramSim/c_Controller.cpp:156-226 | one clock below the transaction scheduler, in the order device update, converter, command scheduler, driver |
| DramPipeline.PackageFits | src/sst/elements/CramSim/c_TxnConverter.cpp:181-203 | a package has one to three commands for every policy and close time, zero included |
| DramPipeline.PackageRuns | src/sst/elements/CramSim/c_TxnConverter.cpp:206-346 | a package runs without error from any row state that matches the converter's record and ends in one that matches the updated record |
| DramPackage.NoShorterPackage | src/sst/elements/CramSim/c_TxnConverter.cpp:206-314 | no legal command sequence that makes the access from any row state matching the record, and leaves the row as the policy wants it, is shorter than the package |
| DramPackage.PackageLength | src/sst/elements/CramSim/c_TxnConverter.cpp:206-314 | a package has one command for the access and one each for closing another row, opening the row, and closing it |
| DramFirst.FirstActAtOnce | src/sst/elements/CramSim/c_Controller.cpp:156-226 | a transaction given in the first clock, whatever the policy, has its ACT accepted by its bank in cycle 1: converted, moved to the driver and sent in one clock, if ACTs take one cycle |
| DramPackage.NumbersAreUnique | src/sst/elements/CramSim/c_TxnConverter.cpp:181-203 | in every run, as long as fewer than 2^32 commands have been made, no two of them, for whatever banks, have the same number |
| DramPseudo.ClosedByFirstLateAccess | src/sst/elements/CramSim/c_TxnConverter.cpp:206-346 | under the pseudo-open policy a row is closed by the first access that comes closeTime clocks or more after it was opened, and by no earlier one, however often it was accessed in between |
| DramPseudo.ClockOfViews | src/sst/elements/CramSim/c_TxnConverter.cpp:126-161 | where the converter keeps nothing back, a clock of it is a clock of every bank's record: its transactions in order, then one tick of the close timer |
| DramEndToEnd.ConvertStream | src/sst/elements/CramSim/c_TxnConverter.cpp:126-161 | with three free entries all pushes of a transaction succeed and the emitted stream stays legal |
| DramEndToEnd.ConverterDrains | src/sst/elements/CramSim/c_TxnConverter.cpp:126-161 | of transactions for different banks that each have three free entries the converter keeps none back |
| DramEndToEnd.EveryRunDrains | src/sst/elements/CramSim/c_TxnConverter.cpp:126-161 | in every run whose transactions fit so the state they are given in, the converter's queue is empty after every clock |
| DramEndToEnd.EveryPipelineRun | src/sst/elements/CramSim/c_Controller.cpp:156-226 | in every run, for all bank policies, refresh settings, transaction streams and visiting orders: every accepted column command finds its row open, no bank reaches a fatal branch, the emitted stream of each bank is legal and agrees with the converter's record, its column commands are performed in order exactly once or still queued, queues keep their bound, no push fails, and the ACT, spacing and data-bus guarantees hold |
| DramOrder.PackageTransfer | src/sst/elements/CramSim/c_TxnConverter.cpp:181-203 | a package holds exactly one column command, with the transaction's direction, address and row |
| DramOrder.ConvertStreams | src/sst/elements/CramSim/c_TxnConverter.cpp:126-161 | conversion appends a bank's new transactions to its stream in order; one that must wait is not overtaken by a later one |
| DramOrder.TransactionsInOrder | src/sst/elements/CramSim/c_Controller.cpp:212-222 | in every run and for every bank, the transfers performed, those queued in driver and scheduler, and the transactions still with the converter are together exactly the transactions given for the bank, in the order given |
| TxnScheduling.ScanIsComplete | src/sst/elements/CramSim/c_TxnScheduler.cpp:310-318 | in a queue sorted by sequence number the early end of the dependency scan overlooks nothing |
| TxnScheduling.SameAddressOrder | src/sst/elements/CramSim/c_TxnScheduler.cpp:124-181 | in every run requests to one address leave in arrival order for the single queue under both policies, for read-first with first-come and for queues of one entry; otherwise every read/write pair does |
| TxnScheduling.OrderKeptExactly | src/sst/elements/CramSim/c_TxnScheduler.cpp:184-222 | all requests to one address leave in arrival order in every run if and only if the configuration is not read-first and row-hit-first with room for two requests |
| TxnScheduling.WritesSwap | src/sst/elements/CramSim/c_TxnScheduler.cpp:199-215 | in every configuration that is, a run of four steps from the empty scheduler ends with two writes to one address swapped |
| TxnScheduling.ClockPassesOne | src/sst/elements/CramSim/c_TxnScheduler.cpp:124-181 | in one clock every channel passes on at most one request, only for a bank with three free slots, and loses no other |
| TxnScheduling.Progress | src/sst/elements/CramSim/c_TxnScheduler.cpp:124-181 | in every configuration a channel whose oldest request has three free slots passes on a request in that clock |
| TxnScheduling.ClockProgress | src/sst/elements/CramSim/c_TxnScheduler.cpp:124-181 | the same within a clock of all channels, whatever flush flag the channels before leave |
| TxnScheduling.ClockLosesNothing | src/sst/elements/CramSim/c_TxnScheduler.cpp:124-181 | a clock neither loses nor doubles a request: held and passed on together stay the same on every channel |
| TxnScheduling.HeadsNeverBlockEachOther | src/sst/elements/CramSim/c_TxnScheduler.cpp:295-321 | in read-first mode the two queue heads never hold each other back |
| TxnPolicy.FewWritesWait | src/sst/elements/CramSim/c_TxnScheduler.cpp:134-164 | in read-first mode with fewer writes than both bounds a read leaves if one may go, the first ready row hit or else the last ready one under row-hit-first, whatever was decided before |
| TxnPolicy.ManyWritesDrain | src/sst/elements/CramSim/c_TxnScheduler.cpp:134-164 | with as many writes as the upper bound, or no reads, a write leaves if one may go |
| TxnPolicy.OtherQueueStepsIn | src/sst/elements/CramSim/c_TxnScheduler.cpp:155-164 | if only one of the two queues has a request that may go, it leaves |
| TxnPolicy.SingleQueuePasses | src/sst/elements/CramSim/c_TxnScheduler.cpp:184-222 | with a single queue its preferred request leaves if one may go, and else nothing changes |
| TxnPolicy.LastDecides | src/sst/elements/CramSim/c_TxnScheduler.cpp:134-145 | the last channel to meet a bound in a clock decides the direction the clock ends with |
| TxnPolicy.DirectionIsKept | src/sst/elements/CramSim/c_TxnScheduler.cpp:134-164 | once a clock has ended in a direction, and as long as no channel meets a bound, every channel passes on a request of that direction in every clock of the run in which one may go |
| TxnPolicy.JoinsExactly | src/sst/elements/CramSim/c_TxnScheduler.cpp:230-261 | a request joins its own queue, behind all others, exactly if that has room |
| TxnSchedulerObject.TxnScheduler.constructor | src/sst/elements/CramSim/c_TxnScheduler.cpp:50-117 | all queues start empty, the flush flag down |
| TxnSchedulerObject.TxnScheduler.HasDependency | src/sst/elements/CramSim/c_TxnScheduler.cpp:295-321 | the scan with its early end finds what the specification finds |
| TxnSchedulerObject.TxnScheduler.GetNextTxn | src/sst/elements/CramSim/c_TxnScheduler.cpp:184-222 | first come: the head if it is issuable; row hit first: the first issuable row hit, or else the last issuable request |
| TxnSchedulerObject.TxnScheduler.RunOne | src/sst/elements/CramSim/c_TxnScheduler.cpp:127-179 | the queue is chosen by the flush flag, the other one tried if it yields nothing, and the request selected passed on; which request that is, is the `TxnPolicy` results |
| TxnSchedulerObject.TxnScheduler.Run | src/sst/elements/CramSim/c_TxnScheduler.cpp:124-181 | every channel in turn, the flush flag handed from one to the next |
| TxnSchedulerObject.TxnScheduler.Push | src/sst/elements/CramSim/c_TxnScheduler.cpp:230-261 | a request joins its queue exactly if that has room, whatever its number |
| DramSystem.PassedOnFits | src/sst/elements/CramSim/c_TxnScheduler.cpp:127-179 | what the channels pass on in one clock is for different banks, each with three free slots |
| DramSystem.ConverterNeverKeeps | src/sst/elements/CramSim/c_Controller.cpp:140-222 | scheduler and pipeline together: in every run the pipeline's part is a run of the pipeline whose transactions fit the state they are given in, and the converter's queue is empty after every clock, as it asserts |
| DramSystem.FeedForBank | src/sst/elements/CramSim/c_Controller.cpp:212-222 | the transactions the pipeline is given for a bank are those that left the bank's channel, in that order |
| DramSystem.ServedAsPassedOn | src/sst/elements/CramSim/c_Controller.cpp:140-222 | in every run and for every bank, what the device has performed and what driver and command scheduler still hold is exactly what left the bank's channel, in that order |
| DramSystem.ServedInArrivalOrder | src/sst/elements/CramSim/c_Controller.cpp:140-222 | end to end, in every run: the j-th transfer on a bank is that of the j-th request for the bank to leave its channel, and of two requests to one address the one that arrived first is served first, for all pairs whose order the configuration keeps |
| DramSettle.AcceptsForGood | src/sst/elements/CramSim/c_BankInfo.cpp:149-175 | left to itself a bank accepts any command that is legal for its row from some clock on, at every later clock |
| DramFirm.NoReactivation | src/sst/elements/CramSim/c_DeviceDriver.cpp:502-519 | without refresh no column command ever waits for a bank that is closed with no ACT queued, so asking queues nothing |
| DramLive.SomethingMoves | src/sst/elements/CramSim/c_Controller.cpp:156-226 | without refresh and new transactions, as long as a command is queued some command moves on after finitely many clocks, for every order of visits that leaves no queue out |
| DramLive.QueuesDrain | src/sst/elements/CramSim/c_Controller.cpp:156-226 | from every reachable state all queues of scheduler and driver run empty |
| DramLive.EveryTransactionPerformed | src/sst/elements/CramSim/c_Controller.cpp:156-226 | after every run every transaction given is performed after finitely many more clocks, on each bank exactly those given and in the order given |
| DramServed.EveryRequestServed | src/sst/elements/CramSim/c_Controller.cpp:140-226 | end to end, with command queues of at least three entries: after every run, once no more requests arrive, every request a channel has taken leaves it exactly once, all queues run empty, and the transfers performed on each bank are those of its requests in the order they left |
| DramServed.SmallQueuesServeNothing | src/sst/elements/CramSim/c_TxnScheduler.cpp:166-179 | with shorter command queues no request ever leaves the scheduler in any run |
| Responses.ExactlyOneResponse | src/sst/elements/CramSim/c_Controller.cpp:156-328 | in every run, with and without quick responses and for every order of device answers, each transaction received is answered once or owed one answer, never both or more, and no answer of the device goes unrecognised |
| Responses.AllAnswered | src/sst/elements/CramSim/c_Controller.cpp:238-264 | when nothing waits or is open any more and responses have been sent, each transaction has been answered exactly once |
| Responses.AnswerFinds | src/sst/elements/CramSim/c_Controller.cpp:299-308 | the answer to a command finds the one entry that waits for it |
| ResponseCauses.AnsweredForCause | src/sst/elements/CramSim/c_Controller.cpp:156-328 | in every run the responses sent or ready for a transaction are exactly those its causes made due: an answer of the device; in quick mode instead a write being taken, and also a read hitting a queued write |
| ResponseCauses.LeaveInOrder | src/sst/elements/CramSim/c_Controller.cpp:238-264 | responses leave in the order of the queue, and the entries that stay keep theirs |
| ResponsesObject.ResponseQueues.HandleIncoming | src/sst/elements/CramSim/c_Controller.cpp:269-288 | a transaction enters request and response queue |
| ResponsesObject.ResponseQueues.TakeRequest | src/sst/elements/CramSim/c_Controller.cpp:167-210 | a quick read hit is answered, a request the scheduler takes leaves the queue, a quick write gains a ready copy, and otherwise all waits |
| ResponsesObject.ResponseQueues.SendResponse | src/sst/elements/CramSim/c_Controller.cpp:238-264 | all ready entries leave in order and nothing else does |
| ResponsesObject.ResponseQueues.HandleDeviceAnswer | src/sst/elements/CramSim/c_Controller.cpp:291-328 | one answer less to wait for; the last makes the entry ready, or removes a quick write that was answered already |
| AddressMap.StuckExactly | src/sst/elements/CramSim/c_AddressHasher.cpp:529-578 | the parser removes nothing exactly on colons followed by digits, and then the loop over the map never ends |
| AddressMap.HangsExactly | src/sst/elements/CramSim/c_AddressHasher.cpp:73-82 | the loop over the map never ends if and only if the map starts with colons followed by digits, at least one character, and what follows is nothing or an acceptable map |
| AddressMap.HangExample | src/sst/elements/CramSim/c_AddressHasher.cpp:529-578 | a size alone hangs the parser; with the colon on the wrong side of the letter it reports an error |
| AddressMap.ParseLetters | src/sst/elements/CramSim/c_AddressHasher.cpp:73-82 | an accepted map begins with a known letter and has known letters only |
| AddressMap.StripSplits | src/sst/elements/CramSim/c_AddressHasher.cpp:60-63 | underscores and newlines are taken out of every part of the map alike |
| AddressHasherObject.AddressHasher.RemoveMarks | src/sst/elements/CramSim/c_AddressHasher.cpp:60-63 | the map without its underscores and newlines |
| AddressMap.PlaceCovers | src/sst/elements/CramSim/c_AddressHasher.cpp:73-82 | every address bit belongs to exactly one letter and each letter's bits ascend |
| AddressMap.BuildIsGood | src/sst/elements/CramSim/c_AddressHasher.cpp:52-270 | an accepted map, simple or not, stripped of underscores and newlines, gives each of the five bank digits enough bits |
| AddressMap.SplitFacts | src/sst/elements/CramSim/c_AddressHasher.cpp:418-448 | the digits of a bank id are in range and add up to it |
| AddressMap.BankRoundTrip | src/sst/elements/CramSim/c_AddressHasher.cpp:416-521 | for every accepted map and bank id below the total, decoding the address made for the id gives the id and its digits |
| AddressMap.BuiltRoundTrip | src/sst/elements/CramSim/c_AddressHasher.cpp:52-521 | any map string that is accepted gives a layout with this round trip |
| AddressMap.BuiltDecodeInjective | src/sst/elements/CramSim/c_AddressHasher.cpp:273-414 | without don't-care bits and with fields of at most 32 bits addresses of the map's width that decode alike are equal |
| AddressMap.DontCare | src/sst/elements/CramSim/c_AddressHasher.cpp:273-414 | a don't-care bit makes two addresses decode alike |
| AddressHasherObject.AddressHasher.ParsePattern | src/sst/elements/CramSim/c_AddressHasher.cpp:529-578 | the scan from the end of the string: letter and size, error, or nothing removed |
| AddressHasherObject.AddressHasher.ParseMap | src/sst/elements/CramSim/c_AddressHasher.cpp:73-82 | the fields in parsing order, an error, or the endless loop |
| AddressHasherObject.AddressHasher.PlaceFields | src/sst/elements/CramSim/c_AddressHasher.cpp:75-79 | consecutive bits go to the fields in parsing order |
| AddressHasherObject.AddressHasher.GetField | src/sst/elements/CramSim/c_AddressHasher.cpp:278-290 | the address bits at a letter's positions, put together and cut to 32 bits |
| AddressHasherObject.AddressHasher.FillHashedAddress | src/sst/elements/CramSim/c_AddressHasher.cpp:273-414 | all fields, the bank id and the rank id of an address, each as `AddressFields.FieldsRoundTrip`, `AddressMap.BankRoundTrip` and `DramTree.DecodedPlace` say |
| AddressHasherObject.AddressHasher.CountOff | src/sst/elements/CramSim/c_AddressHasher.cpp:428-448 | repeated subtraction divides |
| AddressHasherObject.AddressHasher.GetAddressForBankId | src/sst/elements/CramSim/c_AddressHasher.cpp:416-521 | each digit's bits at its letter's positions; no index runs past a letter's bits |
| AddressFields.FieldsRoundTrip | src/sst/elements/CramSim/c_AddressHasher.cpp:273-414 | whatever the layout, every value that fits its letter's bits, put there, is decoded as itself cut to 32 bits and under its own name, for all eight letters and any don't-care bits |
| AddressFields.BuiltFieldsRoundTrip | src/sst/elements/CramSim/c_AddressHasher.cpp:273-414 | so for every map string that is accepted |
| AddressFields.BitOfField | src/sst/elements/CramSim/c_AddressHasher.cpp:73-82 | bit j of a field stands right behind all bits of the fields before it, and belongs to the field's letter |
| AddressFields.WrittenIsRead | src/sst/elements/CramSim/c_AddressHasher.cpp:529-578 | a map string written out from fields is read as exactly these fields, lowest bits first, sizes in decimal |
| AddressFields.LargeSizeRefused | src/sst/elements/CramSim/c_AddressHasher.cpp:529-578 | a size of 2^31 or more is an error |
| AddressFields.StripKeeps | src/sst/elements/CramSim/c_AddressHasher.cpp:60-63 | nothing but underscores and newlines is taken out |
| AddressFields.SimpleAcceptedExactly | src/sst/elements/CramSim/c_AddressHasher.cpp:92-126 | a map of bare letters is accepted if and only if every count whose letter it has is a power of two and every other count is one |
| GnaRefine.DeliverPermuted | src/sst/elements/GNA/neuron.cc:78-81 | the order of deliveries does not matter to the buffers |
| GnaRefine.AssignKeeps | src/sst/elements/GNA/sts.cc:31-43 | a free unit takes a fired neuron: each of its synapses is asked for once |
| GnaRefine.AdvanceOneKeeps | src/sst/elements/GNA/sts.cc:50-67 | a delivery moves one synapse from the answers to the neurons |
| GnaRefine.RespondKeeps | src/sst/elements/GNA/GNA.cc:277-287 | an answer, whichever comes, is recognised and goes to the unit that asked |
| GnaRun.EngineRefinesNetwork | src/sst/elements/GNA/GNA.cc:277-355 | for every interleaving of clocks and memory answers and every dispatch width: when the neurons are about to update, each synapse of each fired neuron has been delivered exactly once, the neurons equal those of the synchronous network after as many steps, and no buffered spike lies in the past |
| GnaRun.IntegrateAgrees | src/sst/elements/GNA/GNA.cc:303-326 | the fire phase ends only when nothing is owed, and then the neurons are the synchronous ones |
| GnaRun.Progress | src/sst/elements/GNA/GNA.cc:303-355 | an answer, or a clock unless all open reads are with the memory, lowers the work of the fire phase or ends it |
| GnaObject.Engine.constructor | src/sst/elements/GNA/GNA.cc:32-72 | the engine starts idle at time zero with free units |
| GnaObject.Engine.ReadMem | src/sst/elements/GNA/GNA.cc:297-301 | a read is queued and its requestor recorded |
| GnaObject.Engine.Assign | src/sst/elements/GNA/sts.cc:31-43 | a unit asks for every synapse of the neuron and counts them |
| GnaObject.Engine.Deliver | src/sst/elements/GNA/GNA.cc:289-295 | the weight is added to the target's buffer at delay plus now |
| GnaObject.Engine.Advance | src/sst/elements/GNA/sts.cc:50-67 | all answers received are delivered in order and counted down |
| GnaObject.Engine.AssignFired | src/sst/elements/GNA/GNA.cc:305-315 | fired neurons go to free units in order, limited by the dispatch width |
| GnaObject.Engine.ProcessFire | src/sst/elements/GNA/GNA.cc:303-326 | assignment, delivery by all units, and the phase ends if all are free and no neuron waits |
| GnaObject.Engine.UpdateNeurons | src/sst/elements/GNA/neuron.cc:83-139 | every neuron integrates and leaks, fires or stays over threshold, as `GnaNeuron.NeuronLaw` says; the fired ones are queued in order |
| GnaNeuron.NeuronLaw | src/sst/elements/GNA/neuron.cc:83-139 | a neuron fires exactly if its voltage and what is buffered for now together exceed the threshold and the draw allows it; then it stands at its reset value, else the charge stays or leaks |
| GnaNeuron.UpdateEach | src/sst/elements/GNA/GNA.cc:343-350 | every neuron is updated once, and the list names those that fire, each once and in order |
| GnaNeuron.BufferIsArrivals | src/sst/elements/GNA/GNA.cc:289-295 | in every run what a neuron finds for a time not yet passed is exactly what all neurons that fired sent it for that time over their synapses, and its constants never change |
| GnaNeuron.FiresExactly | src/sst/elements/GNA/neuron.cc:83-115 | in every run of every network a neuron fires in a step if and only if its voltage and all that was sent to it for that time exceed the threshold and the draw allows it, and its voltage moves accordingly |
| GnaNeuron.FadesInSilence | src/sst/elements/GNA/neuron.cc:93-101 | over k steps in which nothing is sent to it, its fading voltage staying at or below the threshold, a neuron never fires and its voltage fades as the k-th power of the leak |
| GnaNeuron.SourceFiresExactly | src/sst/elements/GNA/neuron.cc:125-139 | an input neuron's k-th spike goes out at its time, or one step after the one before it, and it fires at no other time |
| GnaNeuron.OnTimeExactly | src/sst/elements/GNA/neuron.cc:125-139 | every spike goes out at its own time if and only if the times increase |
| GnaNeuron.SpikesOnTime | src/sst/elements/GNA/neuron.cc:125-139 | with increasing times an input neuron fires exactly at those times, once at each |
| GnaWidth.DispatchExactly | src/sst/elements/GNA/GNA.cc:303-315 | of the fired neurons exactly as many are assigned, the first ones, as there are free units and the dispatch width allows |
| GnaWidth.FireEndsExactly | src/sst/elements/GNA/GNA.cc:317-326 | the fire phase ends in the clock that leaves all units free and no fired neuron waiting, and in no other |
| GnaWidth.SendsExactly | src/sst/elements/GNA/GNA.cc:330-334 | exactly the first reads waiting, up to the number per clock, go to the memory, in order |
| GnaObject.Engine.SendReads | src/sst/elements/GNA/GNA.cc:330-334 | at most the given number of reads goes to memory |
| GnaObject.Engine.ClockTic | src/sst/elements/GNA/GNA.cc:328-355 | reads are sent, then the phase's step is taken |
| GnaObject.Engine.HandleEvent | src/sst/elements/GNA/GNA.cc:277-287 | an answer joins its requestor's queue and is forgotten; unknown ids are reported |
| SambaLru.RanksAreRecency | src/sst/elements/Samba/TLBUnit.cc:510-531 | after any accesses the rank array is a permutation and orders the ways exactly as the list of most recently touched distinct pages does |
| SambaLru.PromoteMoves | src/sst/elements/Samba/TLBUnit.cc:510-531 | updating moves the page to the front of the recency order and nothing else |
| SambaLru.VictimIsLast | src/sst/elements/Samba/TLBUnit.cc:496-507 | the victim is the way of the last rank |
| SambaLru.HitsWithinAssociativity | src/sst/elements/Samba/TLBUnit.cc:483-531 | a page hits exactly if it was touched before and fewer distinct pages than ways have been touched since |
| SambaLru.Inclusion | src/sst/elements/Samba/TLBUnit.cc:483-531 | more ways never turn a hit into a miss |
| SambaBuffer.SetsAreIndependent | src/sst/elements/Samba/TLBUnit.cc:440-447 | a set holds what its own accesses alone would leave |
| SambaBuffer.BufferIsLru | src/sst/elements/Samba/PageTableWalker.cc:927-1021 | over all sets: a hit exactly if the page was accessed and fewer distinct pages of its set than ways have been since |
| SambaBuffer.MoreWaysHitMore | src/sst/elements/Samba/TLBUnit.cc:483-531 | with the same sets a larger associativity hits whenever a smaller one does |
| SambaBuffer.Buffer.constructor | src/sst/elements/Samba/TLBUnit.cc:135-157 | every set starts empty with ranks in way order |
| SambaBuffer.Buffer.CheckHit | src/sst/elements/Samba/TLBUnit.cc:483-493 | hit exactly if a way of the page's set holds it |
| SambaBuffer.Buffer.FindVictimWay | src/sst/elements/Samba/TLBUnit.cc:496-507 | the first way of the last rank |
| SambaBuffer.Buffer.InsertWay | src/sst/elements/Samba/TLBUnit.cc:440-447 | the way holds the page, all else is unchanged |
| SambaBuffer.Buffer.PromotePage | src/sst/elements/Samba/TLBUnit.cc:510-531 | the page's way gets rank zero, the ways ahead of it move back by one, other sets are unchanged |
| SambaBuffer.Buffer.Touch | src/sst/elements/Samba/TLBUnit.cc:382-392 | a miss replaces the least recent page, and page and set end as the specification says |
| SambaMisses.NothingIsLost | src/sst/elements/Samba/TLBUnit.cc:173-436 | in every run each request that arrived is in exactly one place, outstanding misses keep the limit, and at the first level they are for distinct pages, which are the recorded ones and the only ones with waiters |
| SambaMisses.AnswerWakesWaiters | src/sst/elements/Samba/TLBUnit.cc:224-248 | when a miss is answered it and every request waiting for its page get the same finishing time in the next clock |
| SambaMisses.HeadIsServed | src/sst/elements/Samba/TLBUnit.cc:173-362 | the oldest entry leaves in a clock if and only if there is a port and it hits or, after this clock's answers, another miss may be outstanding |
| SambaMisses.AfterAnswers | src/sst/elements/Samba/TLBUnit.cc:178-252 | the answers of a clock are all processed, each frees one outstanding miss, and the queue stays as it was |
| SambaMisses.SuccessorIsPassedOver | src/sst/elements/Samba/TLBUnit.cc:266-362 | whenever the scan removes an entry, the entry behind it takes its place and is still there when the scan ends |
| SambaMisses.EverySecondIsServed | src/sst/elements/Samba/TLBUnit.cc:173-362 | of a queue whose entries hit or, after this clock's answers, could all be outstanding, entry k leaves in the clock if and only if k is even and below twice the port width |
| SambaMisses.BackOnePlaces | src/sst/elements/Samba/TLBUnit.cc:178-252 | processing an answer moves each request concerned to the finished ones and no request elsewhere |
| SambaMisses.ServePlaces | src/sst/elements/Samba/TLBUnit.cc:274-357 | dispatching an entry moves it to one place or leaves it |
| SambaTimes.HitDelayed | src/sst/elements/Samba/TLBUnit.cc:295-304 | a hit served in cycle x is handed back at the first clock not sooner than x plus the hit delay |
| SambaTimes.AnswerDelayed | src/sst/elements/Samba/TLBUnit.cc:224-248 | an answered miss, and every request that waited for its page, is handed back at the first clock not sooner than x plus the miss delay |
| SambaTimes.HandedBackOnTime | src/sst/elements/Samba/TLBUnit.cc:364-428 | in every run a request with a finishing time keeps it, and is handed back exactly when a clock comes that is not sooner |
| SambaUnit.TlbUnit.ProcessBack | src/sst/elements/Samba/TLBUnit.cc:178-252 | all answers from below, the last first, with their waiters |
| SambaUnit.TlbUnit.ServeEntry | src/sst/elements/Samba/TLBUnit.cc:274-357 | an entry hits, waits for its page's miss, goes below, or stays when misses are at the limit |
| SambaUnit.TlbUnit.DispatchInput | src/sst/elements/Samba/TLBUnit.cc:259-362 | the scan up to the port width, passing over the successor of a removed entry |
| SambaUnit.TlbUnit.ReturnReady | src/sst/elements/Samba/TLBUnit.cc:365-431 | exactly the requests whose time has come are handed back |
| SambaUnit.TlbUnit.Tick | src/sst/elements/Samba/TLBUnit.cc:173-436 | answers, dispatch and return, in this order |
| SambaTlb.EveryTlbRun | src/sst/elements/Samba/TLBUnit.cc:173-436 | with hits decided by the translation buffer, and the buffer filled and refreshed by the unit's own accesses, every request stays in exactly one place and the limits on misses hold |
| SambaTlb.HitsAreRecent | src/sst/elements/Samba/TLBUnit.cc:284-303 | at every point of the scan a queued request hits if and only if its page was touched before and fewer distinct pages of its set than ways have been touched since |
| SambaTlb.RefreshManyHeld | src/sst/elements/Samba/TLBUnit.cc:510-531 | refreshing pages that are held changes no look-up |
| SambaRecent.SameSetExactly | src/sst/elements/Samba/TLBUnit.cc:483-493 | two pages share a set exactly if their numbers are a multiple of the number of sets apart |
| SambaRecent.HandedBackIsHeld | src/sst/elements/Samba/TLBUnit.cc:376-394 | after a clock the page of a request it handed back is held, unless as many other pages of its set as there are ways were handed back behind it |
| SambaRecent.AnsweredIsHeld | src/sst/elements/Samba/TLBUnit.cc:178-209 | when the scan begins the page of the answer processed last is held |
| SambaRecent.ScanTouches | src/sst/elements/Samba/TLBUnit.cc:284-303 | every hit that leaves the queue in the scan refreshes its page |
| SambaRecent.OnlyHitsTouched | src/sst/elements/Samba/TLBUnit.cc:284-303 | and no other page is refreshed in it |
| SambaFaults.EveryFaultRun | src/sst/elements/Samba/PageTableWalker.cc:193-346 | for any number of cores and every interleaving: a mapped entry has its three upper entries and the root, the fatal branch is never taken, each page's entry is written once and has a frame of its own, and every request passed to the cache carries its page's frame |
| SambaFaults.FaultKeeps | src/sst/elements/Samba/PageTableWalker.cc:193-231 | a pending page misses some level, so the fatal branch cannot be taken |
| SambaFaults.ResponseKeeps | src/sst/elements/Samba/PageTableWalker.cc:232-331 | building a level keeps the table top down, and an entry is written where none was |
| SambaFaults.TranslationIsInjective | src/sst/elements/Samba/TLBhierarchy.cc:238-260 | requests for one page go to one frame on all cores, requests for two pages never do |
| SambaFaults.PendingIsOwned | src/sst/elements/Samba/PageTableWalker.cc:553-578 | a page pending is being built by some core, so no core waits in vain |
| SambaFaults.ServedCoreContinues | src/sst/elements/Samba/PageTableWalker.cc:464-475 | a core whose page is served is free at its next clock |
| SambaFrames.AnswerIsFiled | src/sst/elements/Samba/PageTableWalker.cc:232-331 | the frame granted becomes the entry of the level being built for the page the core faulted on, and every other entry at every level stays |
| SambaFrames.FaultAsksForTopmost | src/sst/elements/Samba/PageTableWalker.cc:193-231 | a fault asks for the topmost level that is missing; only one that finds every level is fatal |
| SambaFrames.EveryFrameOneUse | src/sst/elements/Samba/PageTableWalker.cc:193-346 | in every run, whatever the interleaving, no frame is in two places of the table at any level, and each was granted |
| SambaWalker.Walker.Detect | src/sst/elements/Samba/PageTableWalker.cc:553-578 | an unmapped page stalls the core and, if nobody handles it yet, starts a fault |
| SambaWalker.Walker.HandlePageFault | src/sst/elements/Samba/PageTableWalker.cc:193-231 | the fault asks for the topmost missing level |
| SambaWalker.Walker.HandleResponse | src/sst/elements/Samba/PageTableWalker.cc:232-331 | the frame becomes the entry of the level, and the next lower one is asked for |
| SambaWalker.Walker.HandleServed | src/sst/elements/Samba/PageTableWalker.cc:332-346 | the page is mapped and no longer pending |
| SambaWalker.Walker.StalledTick | src/sst/elements/Samba/PageTableWalker.cc:464-475 | a stalled core goes on when its page is no longer pending |
| SambaWalker.Walker.ReleaseAll | src/sst/elements/Samba/TLBhierarchy.cc:238-296 | finished requests leave last first, each with its page's entry |
| Opal.BuildOk | src/sst/elements/Opal/mempool.cc:83-105 | a new pool's frames are distinct and all free |
| Opal.AllocateKeeps | src/sst/elements/Opal/mempool.cc:158-188 | a frame is granted exactly if the counter is positive; it was free, and free and allocated frames still partition the pool |
| Opal.DeallocateKeeps | src/sst/elements/Opal/mempool.cc:232-261 | exactly an allocated frame can be given back, and the partition stays |
| Opal.SearchKeeps | src/sst/elements/Opal/Opal.cc:306-336 | the search visits the next shared pools in cyclic order and gives up exactly if those visited are empty |
| Opal.AllocateSharedKeeps | src/sst/elements/Opal/Opal.cc:253-339 | shared allocation indexes a missing pool exactly if the cursor is at no shared pool, and otherwise fails exactly when every shared pool is empty, none being there included |
| Opal.ProcessKeeps | src/sst/elements/Opal/Opal.cc:431-478 | the frame granted was allocated nowhere and no other frame changes hands; a pool that does not exist is indexed exactly if a root fault finds the local pool empty while the cursor is about to come back to it or, without shared pools, if the local pool does not serve the fault and the policy is not local first; in all other cases the fault is refused exactly if the shared pools, and the local one if asked, are empty |
| Opal.StartOk | src/sst/elements/Opal/Opal.h:203-216 | a manager as built, of any size and with or without shared pools, has its frames partitioned and its cursors in place |
| Opal.NoFrameTwice | src/sst/elements/Opal/Opal.cc:431-478 | in every run of every manager no frame is handed out while somebody holds it, and every frame handed out is one of the manager's |
| Opal.GrantsAreDistinct | src/sst/elements/Opal/Opal.cc:431-478 | in every run without returns all addresses ever granted differ |
| Opal.FirstComeFirstServed | src/sst/elements/Opal/mempool.cc:158-188 | frames are taken from the front of the free list, in order |
| Opal.ReturnedLast | src/sst/elements/Opal/mempool.cc:232-261 | a frame given back is used again only after all that are free by then |
| Opal.GrantsAscend | src/sst/elements/Opal/mempool.cc:83-105 | a new pool grants its frames in address order, each a frame size behind the last |
| Opal.CursorExactly | src/sst/elements/Opal/Opal.cc:169-192 | where a node's cursor stands after any number of moves: always local, at the local pool and the shared ones in rotation, or at the local pool and the next shared one by turns |
| Opal.TrapIsReached | src/sst/elements/Opal/Opal.cc:341-372 | with one shared pool of any size a root fault indexes a missing pool as soon as the only local frame is gone, under either cursor policy |
| Opal.TrapWithoutShared | src/sst/elements/Opal/Opal.cc:256-266 | without shared pools the fault after the last local frame indexes a missing pool, root or not, under either cursor policy |
| OpalObject.Manager.constructor | src/sst/elements/Opal/mempool.cc:34-105 | every pool is built from its start, size and frame size, every cursor stands at the local pool, and the invariant of all runs holds |
| OpalObject.Manager.TakeFrame | src/sst/elements/Opal/mempool.cc:158-188 | the first free frame, or none, with the pool's bookkeeping |
| OpalObject.Manager.ReturnFrame | src/sst/elements/Opal/mempool.cc:232-261 | the frame goes back if it was allocated |
| OpalObject.Manager.SetNextMemPool | src/sst/elements/Opal/Opal.cc:128-194 | the cursor's next position under each policy |
| OpalObject.Manager.AllocateShared | src/sst/elements/Opal/Opal.cc:253-339 | the node's pool, else the search of its policy |
| OpalObject.Manager.AllocateLocal | src/sst/elements/Opal/Opal.cc:341-372 | the local pool, else the shared ones from the advanced cursor |
| OpalObject.Manager.ProcessRequest | src/sst/elements/Opal/Opal.cc:431-478 | a root fault or a cursor at the local pool asks that one first |
| Messier.PowerBudget | src/sst/elements/Messier/NVM_DIMM.cc:130-153 | at every moment of every run, for all durations, the weighted sum of the activations and writes really in progress is within the budget and writes within their limit; each counter is above the truth by the operations that took no time |
| Messier.AdvanceExact | src/sst/elements/Messier/NVM_DIMM.cc:143-153 | retiring what completes now keeps a counter equal to what is in progress and what took no time, and its map to when the former completes |
| Messier.OpExact | src/sst/elements/Messier/NVM_DIMM.cc:351-352 | an operation started adds one to counter and map, and only to its own kind |
| Messier.ZeroTimeIsNeverRetired | src/sst/elements/Messier/NVM_DIMM.cc:332-358 | an activation or write issued without duration raises its counter above the operations in progress by one more, after every continuation of the run |
| Messier.CountersExactly | src/sst/elements/Messier/NVM_DIMM.cc:130-153 | a counter is right at every moment of every run if and only if its operations take time or can never be issued |
| Messier.OccupationsAreDisjoint | src/sst/elements/Messier/NVM_DIMM.cc:225-273 | no two operations overlap on a rank or on a bank |
| Messier.EveryOperationIsTimed | src/sst/elements/Messier/NVM_DIMM.cc:225-273 | in every run an activation takes tCMD + tRCD, a write tCMD + tCL_W + tBURST and a transfer tCMD + tCL + tBURST, and each keeps its rank and its bank for exactly its share of that |
| Messier.FreeExactly | src/sst/elements/Messier/NVM_DIMM.cc:332-341 | from the first clock on a rank and a bank are free exactly if every operation on them is over |
| Messier.WriteGoesExactly | src/sst/elements/Messier/NVM_DIMM.cc:332-358 | with durations of at least a cycle a write goes out if and only if rank and bank are free, fewer writes than allowed are in progress, and what is in progress leaves its current |
| Messier.ActivationGoesExactly | src/sst/elements/Messier/NVM_DIMM.cc:603-617 | and a row is activated if and only if rank and bank are free and what is in progress leaves its current |
| NvmDimm.Dimm.Advance | src/sst/elements/Messier/NVM_DIMM.cc:130-153 | the clock advances and retires what completes now |
| NvmDimm.Dimm.Deliver | src/sst/elements/Messier/NVM_DIMM.cc:225-273 | a transfer starts if rank and bank are free and occupies both |
| NvmDimm.Dimm.TryFlush | src/sst/elements/Messier/NVM_DIMM.cc:332-358 | a write starts exactly if rank, bank, write limit and budget allow it |
| NvmDimm.Dimm.TryRead | src/sst/elements/Messier/NVM_DIMM.cc:603-617 | an activation starts exactly if rank, bank and budget allow it |
| WriteBuffer.InsertKeeps | src/sst/elements/Messier/WriteBuffer.cc:47-74 | accepted exactly below the size; the count, the index and the two-threshold flag stay right and the write can be found |
| WriteBuffer.EraseKeeps | src/sst/elements/Messier/WriteBuffer.cc:111-124 | the erased write is gone and count, index and flag stay right |
| WriteBuffer.EraseCompleteExactly | src/sst/elements/Messier/WriteBuffer.cc:111-124 | every other buffered write stays findable exactly if none is to the erased one's line |
| WriteBuffer.EveryRunKeeps | src/sst/elements/Messier/WriteBuffer.cc:47-124 | in every run of insertions and erasures from the empty buffer count, index and two-threshold flag are right |
| WriteBuffer.FlagExactly | src/sst/elements/Messier/WriteBuffer.cc:47-124 | in every run the flag is what the last of the two thresholds met has made it, and between them it stays |
| WriteBuffer.AlwaysFoundExactly | src/sst/elements/Messier/WriteBuffer.cc:111-124 | in a run every buffered write can be found at all times if and only if none ever goes out while another to its line is buffered |
| WriteBuffer.WriteIsHidden | src/sst/elements/Messier/WriteBuffer.cc:111-124 | two writes to one line come in and the first goes out: the second is buffered and cannot be found |
| WriteBuffer.FindIsSound | src/sst/elements/Messier/WriteBuffer.cc:78-87 | whatever is found is a buffered write to that line |
| WriteBuffer.WriteQueue.InsertWrite | src/sst/elements/Messier/WriteBuffer.cc:47-74 | list, index, count and flag after an insertion |
| WriteBuffer.WriteQueue.EraseEntry | src/sst/elements/Messier/WriteBuffer.cc:111-124 | list, index, count and flag after an erasure |

## Left out

- DramTiming.EveryRunIsSpaced: says nothing of runs with READA or WRITEA commands, whose states lower or reassign earliest cycles; row correctness does cover them, and `DramReady.ReadyAfterAuto` a single bank.
- DeviceDriverObject.DeviceDriver.UpdateOtherBanks: one loop over all banks by relation stands for the nested calls through group, rank and channel, and state objects are values, so their identity is not modelled.
- DramReady.ReadyAfterPre: is about a bank that no command on a related bank reaches meanwhile, like all results of its module; what such a command changes is `PushedExactly`.
- DramGreedy.NothingWaitsIdly: leaves out commands with another bank's queued write to the same address, and queues that hold a REF, which no package has.
- DramServed.EveryRequestServed: is about runs without refresh; that queues drain with refresh on is not shown.
- Opal.NoFrameTwice: takes the pools' address ranges not to overlap, which the source leaves to its parameter file; nothing is said of pools that do.
- DramSystem.ServedInArrivalOrder: which transactions are offered to the scheduler in a clock is an input; it takes those numbered above the last one taken, as they come from the controller's queue.
- DramEndToEnd.EveryPipelineRun: takes one column command per transaction; transactions that split into several commands update the converter's record only once and are not covered.
- Responses.ExactlyOneResponse: which request the scheduler takes or finds a hit for is an input, and command numbers are taken to be unique, so a wrap of the 32-bit counter is not covered.
- SambaMisses.NothingIsLost: which requests hit is an input; `SambaTlb` takes it from the buffer, for one page size. Finished requests of one clock form a set, since the source orders them by memory address.
- GnaRun.EngineRefinesNetwork: weights and voltages are reals, and the outcome of the random draw of each neuron and step is an input.
- Messier.PowerBudget: which queued request is tried, the modulo schedule and adaptive writes are inputs; weights are reals.
- AddressMap.BankRoundTrip: assumes the bank total to fit 32 bits; shifts by 32 or more in the width checks, undefined in the source, are read as powers of two.
- SambaFaults.EveryFaultRun: only 4 KB pages are ever mapped, as in the source, whose maps of larger pages are never filled; buffers may evict at any time.
- The driver's output queue, response-ready marks and the command trace file: they carry no decision.
- The RANK command scheduling policy of the command scheduler, whose modulus is one short of the banks per channel.
- A bank's own auto-precharge timer, which the device never reads; the converter's copy is modelled.
- Initialisation from parameter files, links, clocks, statistics and output of all components.
- CramSim's device energy model, trace readers, generators and dispatchers.
- Samba's confined walker mode, shootdown and invalidation, large-page shortcuts and perfect mode.
- Opal's hint path and reserved space, multi-frame allocation, and the random, proportional and fixed-ratio policies.
- Messier's write cancellation, internal cache, squash and hold logic.
- GNA's model file parsing and output traces.
