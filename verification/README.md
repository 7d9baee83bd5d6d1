# Verification of the FlexRAN real-time controller

This project models the parts of the controller where an error would be hardest to see, and proves what they
guarantee for every input, every run or every interleaving.

- **The downlink scheduler.** Once per subframe `run_dlsch_scheduler_preprocessor` divides a cell's resource block
  groups among its UEs, in two rounds with two priorities each, and `run_central_scheduler` decides for each UE
  between a retransmission and new data, sizes the transport block, picks resource blocks and modulation and coding
  scheme, charges control channel elements and prints the allocation as a bitmap. `Preprocessor`, `TransportBlock`,
  `DciBitmap`, `RlcRequests`, `Pdcch`, `SlotTime` and `UeSort` state the parts as functions together with their
  properties; `FairShare` proves who gets how much, and `LastGroup` looks at the one way to get more than was asked
  for. `Downlink` puts them together to one slot (`RunSlot`), `SlotSafety`, `SlotControl` and `SlotEffects` prove what
  a slot guarantees, `SlotExamples` shows slots in which the expected does not hold, with reports that a channel quality
  indicator really gives (`Cqi`), and `HarqRuns`, `QueueRuns` and `ControlRuns` prove what any run of slots, feedback,
  reports and configuration changes guarantees. `SchedulingInfo`,
  `SchedulerHelper` and `CentralScheduler` hold the classes and the loops that update them in place, down to
  `CentralScheduler.RunCentralScheduler`, which is proved equal to `RunSlot`.
- **The RAN information base.** `RibModel` is the state machine behind `rib_updater`, `Rib` and `enb_rib_info`, and
  `RibObjects` the objects, proved equal to it; `RibEntries` proves what the RIB comes to hold and what is asked and
  answered, `RibPipeline` ties it to the network side, and `RibRuns` shows that its messages are events of `HarqRuns`.
- **The message path.** `Framing` is the wire format and its reader, `SendPipeline` the protocol between producer
  threads, the I/O thread, the sessions and the RIB as atomic steps in any order, and `NetworkObjects` the objects whose
  methods are those steps.

All narrow unsigned stores of the C++ code are written out with the functions of `Words`. The relevant standards are
3GPP TS 36.213 (sections 7.1.6.1, 7.1.7.1, 7.1.7.2 and 9.1.1), TS 36.211 (sections 6.8.1 and 6.9) and TS 36.321
(section 5.3.2).

## Assumptions

- The bandwidth is 6, 25, 50 or 100 resource blocks; `ResourceGrid.GridPartition` shows that these are exactly the
  ones for which group count and group size agree.
- A cell has at most 1024 UEs, each with a HARQ process number below 8 and an RNTI in 1..65535; a UE has at most 11
  logical channels (`RlcRequests.Usual`), with queues of any size whose sum fits an `int`.
- The target subframe is neither 0 nor 5; `run_central_scheduler` leaves these alone.
- The transport block table is a parameter, with the bound that every entry fits 16 bits in bytes. What is assumed of
  its entries, in bits, is `TableFacts.RealEntries`, all true of the real table: the first column, growth with the row in
  every other, the rows of all entries in 40..47, the largest entry of the first row, and the entries that the examples
  use. Every hypothesis on block sizes in bytes follows from it (`TableFacts.EntriesInBytes`).
- Sessions stay open, and producers address sessions that exist.

## Where the code does not do what one would expect

Each of these is proved, with the exact condition where there is one.

- A scheduling round starts with no PDCCH symbol, which wraps the quadruplet count: the ledger starts with at least
  7264 control channel elements where three symbols provide at most 88 (`Pdcch.ColdStartWraps`). So the feasibility
  test never refuses a UE in any slot (`SlotControl.NeverInfeasible`), and a slot stays within the physical limit only
  if what its UEs want happens to (`SlotControl.SlotWithinCapacityIff`, `SlotExamples.CapacityExceeded`). The numbers
  of symbols to start with that would keep it are exactly those with a real control region (`Pdcch.CapacityKeptIff`).
- The flag for timing advance commands is set by the first UE whose timer fires and stays set, so every later DCI of
  the call announces one (`SlotControl.TaAnnouncedIff`), in a block that need not have room for it
  (`SlotSafety.AnnouncedPduFitsIff`, `SlotExamples.CommandInherited`).
- A UE without a report for the cell is sized with the scheme that the UE before it was left with, and then its timing
  advance command can be dropped although its timer is restarted (`SlotControl.FiredCommandDroppedIff`,
  `SlotExamples.CommandDropped`). A UE with a report never loses its command (`SlotControl.ReportedCommandIsSent`).
- On a 6 RB carrier a UE whose channel quality stands for scheme 1 and that has at most three bytes, all in its first
  channel, asks for a resource block in every slot and is never sent anything (`ControlRuns.StuckAsksForOne`,
  `ControlRuns.StarvesForever`).
- The test for room in the transport block is unsigned, so a channel that finds the block already full asks for its
  whole queue (`RlcRequests.OverrunExample`, `RlcRequests.BlockRespectedIff`), and the 16-bit total of the requests may
  wrap then (`RlcRequests.NeedWrapsExample`). A DCI may be sent for a block that does not hold its requests
  (`SlotSafety.NewBlockHoldsIff`, `SlotExamples.BlockTooSmall`, `SlotExamples.NeedWraps`).
- The search for resource blocks may start above what the UE was given and then announces more than it allocates
  (`SlotSafety.GrantCoversItsBlock`, `SlotExamples.AnnouncesMoreThanItAllocates`).
- On a 50 RB carrier a UE whose demand is one more than a multiple of three may be given one resource block too many
  (`LastGroup.FirstOverServedIff`, `SlotExamples.OneTooMany`).
- With one resource block the search for a scheme misses the tightest block for needs of 10 to 35 bytes, or 10 to 12,
  depending on where it starts (`TransportBlock.FitMcsAtOneRb`).
- A retransmission repeats the power command of the DCI that first sent its block
  (`HarqRuns.RetransmissionRepeatsItsBlock`); the ten-subframe spacing holds for new blocks
  (`HarqRuns.PowerChangesTenApart`).
- A process offered new data in a slot and sent none forgets how large its last block was, so feedback that asks for
  that block again brings nothing (`SlotEffects.OfferedOrForgotten`, `SlotEffects.ForgottenIsNotRepeated`).
- The erasing loop of a deactivation skips the entry after each erased one (`RibModel.SweepRemovesAllIff`).
- An empty frame is taken for a new connection (`RibModel.EmptyFrameReconnects`).
- `update_rib` dequeues before it tests its budget and so loses one message per saturated cycle
  (`RibModel.CycleLosesOneIffSaturated`, `RibModel.OneLossPerSaturatedCycle`).
- `compare_stats` holds of two equal keys, which is not what `std::sort` requires
  (`UeSort.CompareStatsIsPreorder`).
- A body over 240000 bytes is cut off without notice (`Framing.FramingRoundTrip`, `Framing.ArrivesUnchangedIff`).

## Model

| member | source | states |
|---|---|---|
| ResourceGrid.GridPartition | src/app/remote_scheduler_primitives.cc:35-84 | the groups of a carrier add up to its bandwidth if and only if the bandwidth is 6, 25, 50 or 100 |
| ResourceGrid.UsedPlusFree | src/app/remote_scheduler_primitives.cc:35-84 | on a supported carrier the resource blocks of any set of groups and of its complement add up to the bandwidth |
| Preprocessor.AllocateBelowCounts | src/app/remote_scheduler_helper.cc:275-304 | serving one UE keeps `pre_nb_rbs_available` equal to the sizes of its groups, changes the map by exactly that much, and keeps what is served plus what is owed constant (one more after the two-RB last group at 50 RBs) |
| Preprocessor.AllocateBelowGrows | src/app/remote_scheduler_helper.cc:275-304 | a UE only ever takes groups that were free, and the map changes in exactly those |
| Preprocessor.AllocateBelowSaturates | src/app/remote_scheduler_helper.cc:275-304 | after the group loop no free group could still be given to the UE |
| Preprocessor.PassFrame | src/app/remote_scheduler_helper.cc:183-240 | a pass touches only UEs of its priority with a demand, and frees no group |
| Preprocessor.PassKeeps | src/app/remote_scheduler_helper.cc:183-240 | a pass keeps the partition of the groups, conservation of resource blocks and every UE's balance |
| Preprocessor.PassSaturates | src/app/remote_scheduler_helper.cc:183-240 | every UE visited by the pass of its priority stays saturated to the end of the pass |
| Preprocessor.RoundKeeps | src/app/remote_scheduler_helper.cc:154-243 | one round, refill and both passes, keeps partition, conservation and balance |
| Preprocessor.RoundSaturates | src/app/remote_scheduler_helper.cc:154-243 | after a round every UE with a demand is saturated, whatever its priority and its place in the order |
| Preprocessor.SecondRoundRefill | src/app/remote_scheduler_helper.cc:173-176 | the 16-bit recomputation of the remainder never underflows and returns exactly what the first round withheld |
| Preprocessor.PreprocessSafe | src/app/remote_scheduler_helper.cc:122-243 | for any visiting order and any reserved groups: every group is free, reserved or owned by exactly one UE; served, reserved and free add up to the bandwidth; no UE gets more than it asked for, except one more with the last group at 50 RBs, for which `LastGroup` has the condition on the demand |
| LastGroup.OverServedOnlyIf | src/app/remote_scheduler_helper.cc:282-289 | a UE is given more than it asked for only at 50 RBs with a demand of one more than a multiple of three, an unreserved last group and enough free groups before it, and then exactly one resource block more |
| LastGroup.FirstOverServedIff | src/app/remote_scheduler_helper.cc:275-304 | for the UE that the high priority pass serves first, this condition is exact |
| Preprocessor.WorkConserving | src/app/remote_scheduler_helper.cc:154-243 | if some UE is active and a full group stays free, every UE lacks less than one group; if the short last group stays free, none lacks anything |
| Preprocessor.RoundServesHighFirst | src/app/remote_scheduler_helper.cc:180-242 | a round gives a group to a UE of normal priority only if every high priority UE ends it lacking less than one group |
| Preprocessor.HighPriorityFirst | src/app/remote_scheduler_helper.cc:154-243 | strict priority over both rounds: if any UE of normal priority is given anything at all, no UE of high priority lacks a whole group in the end |
| FairShare.NoMoreThanShare | src/app/remote_scheduler_helper.cc:122-152 | no UE of normal priority holds more than its share after the first round (the carrier divided by the number of active UEs, but no less than one group), apart from one resource block with the last group at 50 RBs |
| FairShare.EveryoneGetsItsShare | src/app/remote_scheduler_helper.cc:122-243 | fair division: when only UEs of normal priority ask, no more of them than are counted, and the carrier has a group for each, every UE visited ends less than one group short of what it asks for or of the carrier divided by the count |
| FairShare.FirstIsGivenItsShare | src/app/remote_scheduler_helper.cc:122-243 | on an empty carrier on which only UEs of normal priority ask, the one that asks first ends less than one group short of its share, however many there are |
| FairShare.PassServesInOrder | src/app/remote_scheduler_helper.cc:183-240 | if a pass gives a group to the UE it visits j-th, every UE of that priority visited before lacks less than a group |
| FairShare.RoundServesInOrder | src/app/remote_scheduler_helper.cc:154-243 | so does a round, among UEs of one priority |
| FairShare.EarlierServedFirst | src/app/remote_scheduler_helper.cc:122-243 | over both rounds: if a UE is given anything at all, every UE of its priority visited before it ends less than one group short of what the first round may give it |
| TransportBlock.RbSearchStopsAtFirstFit | src/app/flexible_scheduler.cc:548-566 | the search ends at the first grid point that fits or at everything available, and exceeds what is available exactly when its starting value does and fits |
| TransportBlock.RbSearchSuffices | src/app/flexible_scheduler.cc:556-566 | if all available resource blocks together hold the need, the block found does |
| TransportBlock.SearchInWholeGroups | src/app/flexible_scheduler.cc:548-566 | above scheme 0 the search asks for whole groups or everything available, at scheme 0 for four resource blocks and then whole groups |
| TransportBlock.FindNbRb | src/app/flexible_scheduler.cc:548-566 | the loop terminates, its 16-bit counter never wraps, and it returns the result of the search with its block size |
| TransportBlock.FitMcsIsTightest | src/app/flexible_scheduler.cc:597-609 | with block sizes monotone in the scheme, both loops end at the smallest block that is large enough over schemes 0..28, or at 28 if none is, from any start |
| TransportBlock.FitMcsBreaksTies | src/app/flexible_scheduler.cc:597-609 | among equally tight blocks, the scheme chosen is the highest up to the start if the block is exactly what is needed, and otherwise the lowest |
| TransportBlock.FitMcsKeepsEnough | src/app/flexible_scheduler.cc:597-609 | a block that was large enough before the loops is large enough after them, monotone or not |
| TransportBlock.FindMcs | src/app/flexible_scheduler.cc:597-612 | both loops terminate and return that scheme with its block size |
| TransportBlock.FitMcsAtOneRb | src/rib/rib_common.cc:48-75 | for the table's first column, the search ends at the tightest block exactly when the need is not in 10..35 (started at scheme 6 or below) or 10..12 (started above) |
| TransportBlock.FitReachesTop | src/app/flexible_scheduler.cc:597-609 | if no scheme beats the highest, anything up to the need fits the block chosen if and only if it fits the highest scheme's |
| TransportBlock.FitReachesIff | src/app/flexible_scheduler.cc:597-609 | when the block chosen for a need holds a few bytes more than that, in every column of the table, the first included |
| TableFacts.EntriesInBytes | src/rib/rib_common.cc:48-75 | from the raw entries in bits, everything assumed of block sizes in bytes follows, through the row of a scheme and the column of a number of resource blocks |
| DciBitmap.MarkGroups | src/app/flexible_scheduler.cc:568-595 | the copying and the marking branch leave the row that `Scheduled` describes, with the 16-bit wrap of `nb_rb_tmp` |
| DciBitmap.AllocatePrbsSub | src/app/remote_scheduler_primitives.cc:317-359 | the bitmap returned is that of the shortest prefix of the row that covers the signed count |
| DciBitmap.BitmapBits | src/app/remote_scheduler_primitives.cc:324-326 | bit n-1-g of the bitmap says whether group g belongs to it, and no other bit is set |
| DciBitmap.BitmapsDisjoint | src/app/remote_scheduler_primitives.cc:324-326 | disjoint sets of groups print as bitmaps without a common bit |
| DciBitmap.MarkFromMarksEnough | src/app/flexible_scheduler.cc:577-594 | marking marks only the UE's groups and at least every group needed, also when the count wraps |
| DciBitmap.DciIsMinimalPrefix | src/app/flexible_scheduler.cc:568-595 | marking followed by trimming gives the shortest sufficient prefix of the UE's own groups, however far marking went |
| DciBitmap.DciCoverage | src/app/remote_scheduler_primitives.cc:324-358 | the DCI covers at least `nb_rb` and less than `nb_rb` plus one group if and only if the UE holds that many, and otherwise everything the UE holds |
| RlcRequests.RequestData | src/app/flexible_scheduler.cc:493-530 | the loop over the channels makes the requests of `ServeAll`, with its 8, 16 and 32-bit counters |
| RlcRequests.RequestsSplit | src/app/flexible_scheduler.cc:502-528 | for any block and any number of channels, each channel's request plus its remaining queue is its old queue |
| RlcRequests.RequestsConserve | src/app/flexible_scheduler.cc:502-528 | for queues of any size, after any number of channels, each channel's request plus its remaining queue is its old queue, and `sdu_length_total` is the sum of the requests modulo 65536 |
| RlcRequests.SomethingRequestedIff | src/app/flexible_scheduler.cc:498-537 | some channel is asked for data if and only if one has some, other than the first channel of a block exactly three bytes larger than the timing advance command |
| RlcRequests.BlockRespectedIff | src/app/flexible_scheduler.cc:502-528 | for queues of any size, the requests in full with their subheaders and timing advance fit the block if and only if the channels before the last busy one leave room for a subheader and more |
| RlcRequests.NoDataNoRequest | src/app/flexible_scheduler.cc:525-527 | with all queues empty nothing is requested, and a block with room for the timing advance command is respected |
| RlcRequests.OverrunExample | src/app/flexible_scheduler.cc:502-504 | two channels of 600 bytes and the block of 549 that scheme 28 has on six resource blocks lead to requests of 1146 bytes |
| RlcRequests.BytesNeededCoversPdu | src/app/flexible_scheduler.cc:543-558 | the size asked of the search covers the PDU if and only if the requests add up to less than 65536 bytes, and is within the block the requests were made for if that was respected |
| RlcRequests.NeedWrapsExample | src/app/flexible_scheduler.cc:524-558 | channels of 400 and 70000 bytes and the block of 349 that scheme 0 has on 100 resource blocks: the PDU has 70350 bytes, and the search is told 4814 |
| Pdcch.ColdStartWraps | src/app/enb_scheduling_info.cc:64-68 | at zero symbols, where every round starts, the quadruplet count is 65532 - 3 * groups |
| Pdcch.CapacityWrapsIff | src/app/remote_scheduler_primitives.cc:237-302 | on every cell and for every number of symbols, the count wraps to at least 7264 elements if and only if PCFICH and PHICH outweigh the symbols; three symbols provide at most 88, and a real control region grows with the symbols |
| Pdcch.RegsAreResourceElements | src/app/remote_scheduler_primitives.cc:282-302 | four times the element groups of the control region are its resource elements, twelve per resource block and symbol, less the four reference signals per resource block |
| Pdcch.PhichGroupsAreCeiling | src/app/remote_scheduler_primitives.cc:244-280 | the PHICH groups of a normal prefix are the least number not below N_g * bandwidth / 8, and an extended prefix doubles them |
| Pdcch.IncreaseKeepsBalance | src/app/enb_scheduling_info.cc:44-56 | assigned plus remaining equals the capacity through a symbol increase, also where the remainder stands for a negative number |
| Pdcch.AssignKeepsBalance | src/app/enb_scheduling_info.h:66 | assigned plus remaining equals the capacity through an assignment |
| Pdcch.ReserveKeepsBalance | src/app/remote_scheduler_primitives.cc:136-182 | the feasibility loop keeps the ledger balanced, only adds symbols, succeeds exactly when the request fits what is left, and gives up only at three symbols |
| Pdcch.LedgerOverRound | src/app/remote_scheduler_primitives.cc:118-182 | the ledger is balanced after any number of requests, whatever number of symbols the round starts with |
| Pdcch.NeverBeyondCapacity | src/app/remote_scheduler_primitives.cc:118-182 | started where the control region is real, no sequence of requests is granted more elements than the symbols provide |
| Pdcch.WrappedStartGrantsAll | src/app/remote_scheduler_primitives.cc:136-182 | started where the count wraps, a round grants everything it is asked for without adding a symbol, up to nearly the wrapped capacity |
| Pdcch.CapacityKeptIff | src/app/enb_scheduling_info.cc:64-68 | a number of symbols to start with keeps every sequence of requests within three symbols if and only if the control region is real with that many |
| Pdcch.HashStepInjective | src/app/remote_scheduler_primitives.cc:201-203 | a step of the search space hash loses no information, 39827 having the inverse 61772 modulo 65537 |
| Pdcch.HashStaysInRange | src/app/remote_scheduler_primitives.cc:199-203 | for every number of steps the hash stays in 1..65536 and its product fits 32 bits |
| Pdcch.HashKeepsRntisApart | src/app/remote_scheduler_primitives.cc:199-203 | different RNTIs have different hashes in every subframe |
| Pdcch.GetNcceOffset | src/app/remote_scheduler_primitives.cc:184-234 | the search always finds an offset; it is a multiple of the aggregation level and the candidate lies inside the control region |
| SlotTime.TargetSlotIsAhead | src/app/flexible_scheduler.cc:293-300 | the target is (10 * frame + subframe + look-ahead) mod 10240 for every look-ahead, exactly as long as the reported subframe is a decimal digit or carries once |
| SlotTime.TpcDueIffTenApart | src/app/flexible_scheduler.cc:642-645 | the guard on power commands holds if and only if the circular distance from the last update is at least ten subframes |
| SlotTime.Command | src/app/flexible_scheduler.cc:642-663 | a command other than "keep" is sent only when due, and then the update slot is the target; the slot moves in no other case; which command it is says `CommandControls` |
| SlotTime.CommandControls | src/app/flexible_scheduler.cc:642-663 | the control law: when a command is due and the measurement is new, a received power two or more from the wanted one comes strictly closer with the step of the command; otherwise the UE keeps its power; the update slot moves exactly then |
| SlotTime.DueMeansTenLater | src/app/flexible_scheduler.cc:642-645 | in time counted since start-up, a due command is at least ten subframes later, across any number of frame wraps |
| Downlink.NextHarq | src/rib/ue_mac_rib_info.h:69-85 | the free process with the lowest number, or -1 exactly if none is free |
| SlotSafety.TurnPrintsPrefix | src/app/flexible_scheduler.cc:398-711 | in either branch the DCI prints the shortest prefix of the UE's own groups that covers its resource blocks |
| SlotSafety.ReadyForTurn | src/app/remote_scheduler_helper.cc:55-243 | when the UE loop starts, each UE's count matches its groups, its old rows are cleared, and it holds groups only if it has a demand |
| SlotSafety.SlotBitmapsDisjoint | src/app/flexible_scheduler.cc:337-718 | end to end over one slot, for any number of UEs: the bitmaps of any two DCIs have no common bit, and each stays in its UE's groups |
| SlotSafety.GrantSize | src/app/flexible_scheduler.cc:415-566 | no DCI is sent without groups; a retransmission fits what the UE was given; a new block has the size the search returns |
| SlotSafety.GrantCoversItsBlock | src/app/flexible_scheduler.cc:548-711 | the groups printed cover the announced resource blocks, by less than one group more, except exactly when a new block's search starts above what is available |
| SlotSafety.NewBlockLargeEnoughIff | src/app/flexible_scheduler.cc:548-612 | if no scheme beats the highest, the block announced is as large as the need in its 16-bit count if and only if the highest scheme's is on the resource blocks chosen |
| SlotSafety.NewBlockHoldsIff | src/app/flexible_scheduler.cc:473-612 | if no scheme beats the highest, and for queues of any size, a new block holds all requested bytes with subheaders and the UE's own timing advance command if and only if the highest scheme's block would |
| SlotSafety.NewBlockHoldsRequests | src/app/flexible_scheduler.cc:473-612 | requests, resource block search and scheme search together, for queues of any size: unless the channels overrun the block, the block announced holds every requested byte with subheaders, and the timing advance command unless that was announced because of another UE |
| SlotSafety.AnnouncedPduFitsIff | src/app/flexible_scheduler.cc:489-491 | a new block holds the PDU with the command that its DCI announces, possibly because of another UE, exactly when the highest scheme's block does and no scheme meets the need without meeting the command too, or the search on one resource block misses the tightest block |
| SlotSafety.SlotGrantsCover | src/app/flexible_scheduler.cc:349-717 | for every UE of every slot: no DCI without groups, retransmissions fit, and the groups cover the announced resource blocks except exactly when a search starts too high |
| SlotSafety.SlotBlocksHold | src/app/flexible_scheduler.cc:472-612 | for every UE of every slot, on a table of the real shape: a new block holds its PDU exactly when the highest scheme's block would, always unless its channels overrun it, and with the announced command exactly as `AnnouncedPduFitsIff` says |
| SlotEffects.SlotQueues | src/app/flexible_scheduler.cc:498-530 | for every UE of every slot, a new block takes from each queue exactly what it requests from the channel, and without one the queues are unchanged |
| SlotEffects.SlotPower | src/app/flexible_scheduler.cc:642-667 | every new block of a slot carries the command of the control law, and nothing else moves a UE's update slot |
| SlotEffects.SlotProcess | src/app/flexible_scheduler.cc:388-400 | a DCI is for the free process with the lowest number, whose status says whether it is a retransmission, and makes it and no other wait |
| SlotEffects.OfferedOrForgotten | src/app/remote_scheduler_helper.cc:105-114 | a process offered new data carries a new block after the slot or has forgotten the size of its old one |
| SlotEffects.ForgottenIsNotRepeated | src/app/remote_scheduler_helper.cc:110-114 | and a late negative acknowledgement for a forgotten block brings no DCI |
| SlotEffects.SlotDemand | src/app/remote_scheduler_helper.cc:308-368 | in a slot a UE with new data asks for nothing exactly when it has no data or no LC entry, and otherwise for the first number of whole groups that holds all it has queued at the reported scheme, or the whole carrier; a retransmission asks for what its block had; priority is high with at most two channels, and stays what it was without queues |
| SlotEffects.SlotBlocksInWholeGroups | src/app/flexible_scheduler.cc:548-566 | a new block sized at a scheme above 0 is for whole groups or for everything the UE was given |
| SlotEffects.SlotPriority | src/app/remote_scheduler_helper.cc:180-242 | in a slot a UE with more than two channels is given something only if every visited UE with at most two lacks less than a group |
| SlotEffects.SlotShares | src/app/remote_scheduler_helper.cc:122-243 | fair division in a slot, with the number of active UEs of that slot |
| SlotEffects.SlotInOrder | src/app/remote_scheduler_helper.cc:183-240 | in a slot, among UEs of one priority, one is given something only if each visited before it ends less than one group short of what the first round may give it |
| SlotEffects.SlotFirstShare | src/app/remote_scheduler_helper.cc:116-152 | in a slot without high priority, the UE that asks first ends less than one group short of its share, the carrier divided by the number of UEs that ask and have a free process |
| SlotEffects.TurnLeavesMcs | src/app/flexible_scheduler.cc:365-612 | the scheme that a turn leaves in the local for the next UE, turn by turn of either kind |
| SlotControl.TurnGrantIff | src/app/flexible_scheduler.cc:383-424 | a turn sends a DCI if and only if elements can be reserved and the UE has a free process, groups, and a retransmission that fits or a channel to ask |
| SlotControl.NeverInfeasible | src/app/remote_scheduler_primitives.cc:136-161 | in no slot of any cell does the feasibility test refuse a UE or add a symbol, at any aggregation level |
| SlotControl.SlotGrantIff | src/app/flexible_scheduler.cc:349-717 | so in every slot a UE is sent a DCI if and only if, as the preprocessor leaves it, it has something to send |
| SlotControl.SlotWithinCapacityIff | src/app/flexible_scheduler.cc:694 | the elements assigned in a slot stay within three symbols if and only if those wanted by the prepared UEs that have something to send do |
| SlotControl.ReportedWithinCapacityIff | src/app/flexible_scheduler.cc:694 | when every UE has a report for the cell, that condition needs only the prepared UEs and their reports |
| SlotControl.TaAnnouncedIff | src/app/flexible_scheduler.cc:489-491 | a DCI announces a timing advance command if and only if its own or an earlier turn of the same call made room for one |
| SlotControl.NewDataHasData | src/app/remote_scheduler_helper.cc:324-345 | a UE that holds groups for new data has a channel with data |
| SlotControl.EmptyTurnDropsCommand | src/app/flexible_scheduler.cc:668-670 | a turn without data would restart the timer and send nothing |
| SlotControl.FiredCommandDroppedIff | src/app/flexible_scheduler.cc:476-504 | in a slot, a turn that fires restarts its timer, and sends nothing if and only if its block is five bytes long and only its first channel has data |
| SlotControl.ReportedCommandIsSent | src/app/flexible_scheduler.cc:405-410 | a UE with a report for the cell whose timer fires is sent a DCI that announces its command |
| SlotControl.SlotTimer | src/app/flexible_scheduler.cc:476-487 | in a slot only a turn for new data touches a UE's timing advance timer |
| SlotExamples.CapacityExceeded | src/app/flexible_scheduler.cc:694 | a slot of one UE on 6 RBs with the worst channel quality that is assigned eight elements where three symbols provide four |
| SlotExamples.CommandDropped | src/app/flexible_scheduler.cc:476-504 | a slot of three UEs in which one without a report for the cell loses its command |
| SlotExamples.CommandInherited | src/app/flexible_scheduler.cc:680-681 | a slot of two UEs in which the second is announced the first one's command in a block without room for it |
| SlotExamples.AnnouncesMoreThanItAllocates | src/app/flexible_scheduler.cc:550-556 | a slot of two UEs in which a DCI announces four resource blocks and allocates one |
| SlotExamples.BlockTooSmall | src/app/flexible_scheduler.cc:502-612 | a slot in which a DCI of 549 bytes goes with requests for 1146 |
| SlotExamples.OneTooMany | src/app/remote_scheduler_helper.cc:282-289 | a UE on 50 RBs that asks for four resource blocks and is given five |
| SlotExamples.NeedWraps | src/app/flexible_scheduler.cc:524-612 | a slot of one UE on 100 RBs whose block is as large as the wrapped need of 4814 and whose PDU has 70350 bytes |
| Cqi.FromCqiIsValid | src/rib/rib_common.cc:26-40 | every channel quality indicator stands for a scheme up to 28 and an aggregation level up to 3, and none for scheme 3 |
| Cqi.BetterChannelMoreEfficient | src/rib/rib_common.cc:26-40 | a better channel never means a lower scheme or more control channel elements |
| HarqRuns.FeedbackKeepsInv | src/rib/ue_mac_rib_info.cc:29-37 | feedback frees its own process and leaves every process's memory consistent with the history |
| HarqRuns.JoinKeepsInv | src/rib/ue_mac_rib_info.h:40-51 | so does the making of a MAC entry for a UE whose scheduling information is an old one |
| HarqRuns.RetransmitKeepsInv | src/app/flexible_scheduler.cc:415-467 | a retransmission keeps all eight processes of the UE consistent with the history |
| HarqRuns.SendNewKeepsInv | src/app/flexible_scheduler.cc:472-667 | so does a new block, and its power command is spaced from all earlier ones |
| HarqRuns.StepKeepsInv | src/app/flexible_scheduler.cc:265-718 | every event, feedback, buffer report, configuration, deactivation or scheduling slot, keeps the invariant of every UE |
| HarqRuns.NoSecondGrantBeforeFeedback | src/app/flexible_scheduler.cc:388-400 | in any run, two DCIs for one process have feedback for it, or an activation of the UE, between them |
| HarqRuns.RetransmissionRepeatsItsBlock | src/app/flexible_scheduler.cc:415-467 | in any run, a retransmission repeats scheme, block size, new-data indicator, resource block count and power command of the DCI that first sent its block |
| HarqRuns.NewBlocksToggleNdi | src/app/flexible_scheduler.cc:664-665 | in any run, consecutive new blocks on a process carry opposite new-data indicators |
| HarqRuns.PowerChangesTenApart | src/app/flexible_scheduler.cc:642-666 | in any run, power changes sent with new blocks to one UE are at least ten subframes apart |
| QueueRuns.StepKeepsQueues | src/app/flexible_scheduler.cc:498-530 | every event, report, configuration, feedback or slot, keeps requests and queues in balance with the last report of every UE |
| QueueRuns.RequestedPlusShownIsReported | src/app/flexible_scheduler.cc:522 | in any run, for every UE and every channel: the bytes requested since its last queue report or new MAC entry plus what its queue still shows are what was reported |
| ControlRuns.TimerFollowsTurns | src/app/flexible_scheduler.cc:476-487 | in any run the timer never falls by more than the UE's turns for new data, and while it does not fire it follows them down to 0 exactly |
| ControlRuns.TimerFiresLate | src/app/ue_scheduling_info.h:42-47 | in any run at least 20 turns for new data lie before a UE's timer first fires |
| ControlRuns.TimerFiresApart | src/app/flexible_scheduler.cc:476-487 | and at least 20 between any two times |
| ControlRuns.TimerFiresWhenDue | src/app/flexible_scheduler.cc:476-487 | once it has fired, it fires again in a turn for new data that finds a command pending if and only if 20 have passed |
| ControlRuns.StuckAsksForOne | src/app/remote_scheduler_helper.cc:345-366 | a UE at scheme 1 with at most three bytes, all in its first channel, asks for one resource block of a 6 RB carrier in every slot |
| ControlRuns.StarvesForever | src/app/flexible_scheduler.cc:498-537 | and over any run is never sent a DCI as long as that lasts, whatever the other UEs do |
| SchedulingInfo.UeSchedulingInfo.constructor | src/app/ue_scheduling_info.h:42-47 | a new UE has nothing allocated, full timing advance timer and high priority |
| SchedulingInfo.UeSchedulingInfo.StartNewSchedulingRound | src/app/ue_scheduling_info.cc:29-36 | the allocation of the last slot and all marked rows are cleared, the HARQ memory is kept |
| SchedulingInfo.UeMacRibInfo.UpdateDlSfInfo | src/rib/ue_mac_rib_info.cc:29-37 | the reported process, and no other, becomes free with the reported status |
| SchedulingInfo.UeMacRibInfo.GetNextAvailableHarq | src/rib/ue_mac_rib_info.h:69-76 | returns the first free process |
| SchedulingInfo.UeMacRibInfo.HasAvailableHarq | src/rib/ue_mac_rib_info.h:78-85 | true exactly when that search finds one |
| SchedulingInfo.UeMacRibInfo.HarqScheduled | src/rib/ue_mac_rib_info.h:87-90 | the scheduled process, and no other, starts waiting |
| SchedulingInfo.EnbSchedulingInfo.StartNewSchedulingRound | src/app/enb_scheduling_info.cc:58-68 | the map is cleared and the ledger starts at no symbol |
| SchedulingInfo.EnbSchedulingInfo.IncreaseNumPdcchSymbols | src/app/enb_scheduling_info.cc:44-56 | one more symbol in the ledger, in 32-bit arithmetic |
| SchedulingInfo.EnbSchedulingInfo.CceAllocationInfeasible | src/app/remote_scheduler_primitives.cc:118-182 | the loop terminates, never divides by zero, and leaves a balanced ledger with room for the request unless it reports infeasibility |
| SchedulerHelper.PerformPreProcessorAllocation | src/app/remote_scheduler_helper.cc:264-306 | the loop over the groups updates map and UE as `AllocateBelow` says |
| SchedulerHelper.AllocatePass | src/app/remote_scheduler_helper.cc:183-240 | the loop over the sorted UEs of one priority has the effect of `Pass` and touches no other UE |
| SchedulerHelper.SetCaps | src/app/remote_scheduler_helper.cc:130-152 | each UE's first-round share is set once, whatever the order |
| SchedulerHelper.RefillRemaining | src/app/remote_scheduler_helper.cc:156-178 | each UE's remainder is set once per round, whatever the order |
| SchedulerHelper.AllocateRounds | src/app/remote_scheduler_helper.cc:122-243 | caps and both rounds together have the effect of `Preprocess`, for which `FairShare` says who gets how much |
| SchedulerHelper.AssignRbsRequired | src/app/remote_scheduler_helper.cc:308-368 | priority from the number of configured channels, and demand from the first grid point that holds all queued bytes, or the whole bandwidth |
| SchedulerHelper.ReadHarq | src/app/remote_scheduler_helper.cc:85-120 | each UE's demand follows the process it would use, and the count returned is the number of active UEs |
| SchedulerHelper.RunDlschSchedulerPreprocessor | src/app/remote_scheduler_helper.cc:30-262 | the whole preprocessor leaves every UE as `Preprocessed` says |
| CentralScheduler.RetransmitBlock | src/app/flexible_scheduler.cc:415-471 | the retransmission branch leaves UE, ledger and DCI as `Retransmit` says, and sends nothing if the block no longer fits |
| CentralScheduler.UpdateTpc | src/app/flexible_scheduler.cc:642-663 | returns the power command and moves the update slot as `Command` says, whose control law is `SlotTime.CommandControls` |
| CentralScheduler.ChooseBlock | src/app/flexible_scheduler.cc:548-612 | the searches in sequence give resource blocks, marked groups, scheme, block size and bitmap for a given need, the scheme search on the resource blocks already chosen |
| CentralScheduler.SendNewBlock | src/app/flexible_scheduler.cc:472-671 | the new data branch has the effect of `SendNew`: the timing advance flag set if the timer fires, queues lowered by the requests (`SlotEffects.SlotQueues`), and process, power slot and ledger changed only if something is sent |
| CentralScheduler.ScheduleUe | src/app/flexible_scheduler.cc:365-715 | one UE's turn has the effect of `TakeTurn`, and the elements in use grow by exactly the granted ones |
| CentralScheduler.ScheduleUes | src/app/flexible_scheduler.cc:349-717 | the UE loop gives each UE its turn in list order, ledger and locals carried along, and no UE's turn changes another UE |
| CentralScheduler.RunCentralScheduler | src/app/flexible_scheduler.cc:243-730 | nothing changes for a slot already dealt with or a target subframe 0 or 5; otherwise grants and UE states are those of `RunSlot` |
| UeSort.CompareStatsIsPreorder | src/app/remote_scheduler_helper.cc:450-469 | total, transitive, with ties exactly the equal keys, whose order `CompareStatsIff` gives; only its strict part is a strict weak order |
| UeSort.CompareStatsIff | src/app/remote_scheduler_helper.cc:450-469 | it holds exactly if harq round, bytes in the control channels, delay, bytes in all and channel quality of the first are lexicographically at least those of the second |
| UeSort.SortUesIsSortedPermutation | src/app/remote_scheduler_helper.cc:436-446 | every UE index exactly once, in non-increasing lexicographic order of the keys, spelled out by `EarlierIsMoreUrgent` |
| UeSort.EarlierIsMoreUrgent | src/app/remote_scheduler_helper.cc:436-446 | a UE visited earlier never has a lower HARQ round; among equal rounds never fewer bytes in the control channels; among equal ones never a smaller delay; then never fewer bytes; then never a worse channel |
| UeSort.SortedOrdersAgree | src/app/remote_scheduler_helper.cc:436-437 | any two sorted orders agree in the key at every position, so the algorithm matters only among equal keys |
| Framing.ProtocolMessage.SetMessage | src/network/protocol_message.cc:30-40 | the buffer starts with the frame of the message |
| Framing.ProtocolMessage.EncodeHeader | src/network/protocol_message.cc:55-60 | the header bytes are the length, most significant first, and the body is untouched |
| Framing.ProtocolMessage.DecodeHeader | src/network/protocol_message.cc:42-53 | succeeds if and only if the length is at most 240000, and resets it otherwise |
| Framing.ReadStream | src/network/agent_session.cc:42-69 | the alternating header and body reads deliver what `Read` says, on any byte stream |
| Framing.HeaderRoundTrip | src/network/protocol_message.cc:42-60 | decoding an encoded 32-bit length returns it |
| Framing.HeadersOrdered | src/network/protocol_message.cc:42-60 | most significant byte first: headers compare like the lengths they stand for |
| Framing.FramingRoundTrip | src/network/agent_session.cc:42-69 | reading the frames of any list of messages returns the list, each cut to 240000 bytes, consumes the stream and keeps the session open |
| Framing.ArrivesUnchangedIff | src/network/protocol_message.cc:30-40 | a message arrives as sent if and only if it has at most 240000 bytes |
| Framing.PartialStreamDeliversPrefix | src/network/agent_session.cc:42-69 | after any number of bytes, exactly the messages whose frames are complete have been delivered |
| SendPipeline.StepKeepsInv | src/network/async_xface.cc:49-65 | every atomic step of a producer or of the I/O thread keeps: handlers posted or about to be equal the queue length; a session has one write outstanding exactly when its queue is not empty; nothing sent to a session is lost or reordered |
| SendPipeline.NeverPopsEmpty | src/network/async_xface.cc:60-65 | in any interleaving no handler or completion finds its queue empty, and at most one write per session is outstanding |
| SendPipeline.AgentReceivesPushOrder | src/network/agent_session.cc:31-87 | in any interleaving, what an agent reads from its connection is the first messages pushed for it, in push order, and all of them once the queues are empty |
| SendPipeline.ConnectMarkersFresh | src/network/connection_manager.cc:39-52 | in any interleaving, as long as no agent sends an empty body, a connect marker that reaches the RIB has an id that no earlier message had |
| SendPipeline.RibFetchesArrivalOrder | src/network/async_xface.cc:39-47 | in any interleaving, what the RIB has fetched and what is still queued for it are the messages that came in while there was room, in order of arrival |
| NetworkObjects.AgentSession.Deliver | src/network/agent_session.cc:31-40 | the frame is queued, and a write is started exactly if none was in progress |
| NetworkObjects.AgentSession.OnWritten | src/network/agent_session.cc:77-82 | the front frame has left, and the next write is started exactly if something is queued |
| NetworkObjects.AsyncXface.PushMsg | src/network/async_xface.cc:49-58 | first half of `send_msg`: queued unless 10000 are, and the caller is told which |
| NetworkObjects.AsyncXface.ForwardMsgToAgent | src/network/async_xface.cc:60-65 | the oldest message goes to its session and to no other |
| NetworkObjects.AsyncXface.ForwardMessage | src/network/async_xface.cc:39-41 | what comes in is queued unless 10000 are, and otherwise lost |
| NetworkObjects.AsyncXface.GetMsgFromNetwork | src/network/async_xface.cc:43-47 | the RIB gets the oldest message, if there is one |
| NetworkObjects.AsyncXface.AcceptConnection | src/network/connection_manager.cc:39-52 | a new session gets the next id, all others stay, and the connect marker is queued for the RIB |
| RibModel.DeactivationKeepsMacIff | src/rib/enb_rib_info.cc:65-80 | a deactivation removes the RNTI from the MAC table, and every remaining UE keeps its MAC entry if and only if no second configuration had that RNTI |
| RibModel.SweepRemovesAllIff | src/rib/enb_rib_info.cc:73-78 | no LC entry of the RNTI survives if and only if no two of them were adjacent |
| RibModel.InsertMacsKeys | src/rib/enb_rib_info.cc:42-50 | a full UE configuration makes a fresh MAC entry for exactly the new RNTIs and leaves existing entries as they are |
| RibModel.LastStatusWins | src/rib/enb_rib_info.cc:99-107 | after a subframe trigger each HARQ process of each known UE is free with the last status reported for it, or untouched if there is none |
| RibModel.LastReportWins | src/rib/enb_rib_info.cc:122-136 | after a statistics reply each known UE has the queues of the last report that carries any, or its own if there is none |
| RibModel.AgentsDoNotInterfere | src/rib/rib_updater.cc:38-94 | whatever other agents send in between, an agent's entry, whether it is pending and what is sent to it are those of its own messages alone |
| RibModel.OneHelloPerMarker | src/rib/rib_updater.cc:44-57 | over any messages, each connection is greeted exactly as often as a connect marker came in for it |
| RibModel.HandleKeepsInv | src/rib/rib_updater.cc:38-94 | each proper message keeps pending and registered agents apart, RNTIs distinct and a MAC entry for each UE, and drops no agent |
| RibModel.SequenceKeepsInv | src/rib/rib_updater.cc:38-94 | so does every sequence of proper messages |
| RibModel.FreshMarkerIsProper | src/rib/rib.cc:26-48 | after any messages, a connect marker with a new id is proper |
| RibModel.ProperIsNeeded | src/rib/rib_updater.cc:44-46 | from a good state a message that reaches its agent keeps the invariant if and only if it is proper: fresh connection ids, no RNTI twice in a configuration, no activation of a known RNTI |
| RibModel.EmptyFrameReconnects | src/rib/rib_updater.cc:44-46 | one empty frame from a registered agent passes the framing layer and makes the agent pending again |
| RibModel.CycleLosesOneIffSaturated | src/rib/rib_updater.cc:38-94 | with budget b and messages arriving before any dequeue: first-in first-out, at most b handled, and exactly one lost if and only if all b + 1 dequeues find something, otherwise none |
| RibModel.QuietCycle | src/rib/rib_updater.cc:38-94 | with nothing arriving meanwhile a cycle handles the first min(n, b) of n messages and leaves the queue from position min(n, b + 1) |
| RibModel.OneLossPerSaturatedCycle | src/rib/rib_updater.cc:38-94 | over any number of cycles and whenever messages arrive, handled, lost and queued messages are the arrivals in order, with one loss per saturated cycle |
| RibEntries.RegisteredIff | src/rib/rib_updater.cc:181-190 | over every message sequence from the start: an agent has an entry if and only if some connect marker for it is followed by a configuration reply, and is pending if and only if some marker is not |
| RibEntries.ConfigurationIsOfLastRegistration | src/rib/rib_updater.cc:181-190 | a registered agent has the cell configuration of the last reply that found it pending |
| RibEntries.PartsStep | src/rib/rib_updater.cc:172-235 | each part of an agent's entry changes only with the messages that set it, and then to what they say |
| RibEntries.StoredUntilChanged | src/rib/rib_updater.cc:172-235 | over any messages, reconnections included: the slot is that of the last trigger, and the UE and LC lists are those of the last reply unless a UE has changed since |
| RibEntries.MacStep | src/rib/enb_rib_info.cc:65-136 | one UE's MAC entry after one message: the last status of each process after a trigger, the last queues after a statistics reply, gone after a deactivation, and otherwise untouched |
| RibEntries.ChangeByLookup | src/rib/enb_rib_info.cc:54-85 | looked up by RNTI, an activation adds its configuration, a deactivation removes it, an update replaces it if it is there, and no other UE's configuration changes |
| RibEntries.SweepKeepsOthers | src/rib/enb_rib_info.cc:73-78 | a deactivation leaves the LC entries of all other UEs in place and in order |
| RibEntries.NewEntriesServe | src/rib/enb_rib_info.cc:42-64 | a new MAC entry has every process free for new data and shows no queues, and one that exists is kept |
| RibEntries.ConfigurationsAskedFor | src/rib/rib_updater.cc:97-235 | over any messages an agent is asked for each of its three configurations once per successful hello, and for its LC configuration once more per change of a UE while it is registered |
| RibEntries.EchoesAnswered | src/rib/rib_updater.cc:143-159 | over any messages every echo request is answered once, in order and with its own transaction number |
| RibRuns.MessageMatches | src/rib/rib_updater.cc:58-88 | one message and the events of `HarqRuns` that it stands for keep an agent's entry and a system in step: the same UEs configured in the same order, the same ones with a MAC entry, and the same feedback and queues in it |
| RibRuns.EntryFollowsEvents | src/rib/enb_rib_info.cc:38-136 | over every proper message sequence from the start, reconnections and other agents' messages included, an agent's entry is what its events make of a system in which no UE is known |
| RibRuns.RibMakesARun | src/rib/enb_rib_info.cc:38-136 | and those events are a run, so feedback, reports and configuration changes reach the scheduler as `HarqRuns` assumes |
| RibPipeline.PipelineKeepsRib | src/network/connection_manager.cc:39-52 | in any run of the network side without empty bodies, whichever fetched messages are handled, connect markers are proper, so the RIB keeps its invariant if configuration replies and activations are |
| RibObjects.EnbRibInfo.ReplaceUeConfig | src/rib/enb_rib_info.cc:38-52 | the configuration is replaced, missing MAC entries are made and existing ones kept |
| RibObjects.EnbRibInfo.EraseLcs | src/rib/enb_rib_info.cc:73-78 | the erasing loop in place has the effect of `SweepLcs` |
| RibObjects.EnbRibInfo.ChangeUeConfig | src/rib/enb_rib_info.cc:54-85 | activation appends, deactivation removes the first match with its MAC and LC entries, an update overwrites every match |
| RibObjects.EnbRibInfo.UpdateSubframe | src/rib/enb_rib_info.cc:92-107 | time moves on, and each piece of downlink feedback reaches its UE's process in order |
| RibObjects.EnbRibInfo.UpdateMacStats | src/rib/enb_rib_info.cc:122-136 | each report replaces its UE's queues if it carries any; reports for unknown UEs change nothing |
| RibObjects.Rib.Register | src/rib/rib_updater.cc:181-190 | a pending agent gets an entry, or keeps the one it has, and stops being pending |
| RibObjects.Rib.Handle | src/rib/rib_updater.cc:38-94 | one message changes pending agents and the sender's entry as `Handle` says, and no other agent; what that makes of any message sequence is proved in `RibEntries` |
| RibObjects.RibUpdater.SendReplies | src/rib/rib_updater.cc:46-57 | what is sent back for a message, and only that |
| RibObjects.RibUpdater.UpdateRib | src/rib/rib_updater.cc:38-94 | one cycle takes out of the queue, handles and answers exactly what `RunCycle` says, in order, with the network thread pushing before any dequeue |

## Left out

- Cells of one agent are scheduled one after another; the model is one cell, with the list of its UEs already
  selected and the per-cell rows of the scheduling arrays as its state. The per-HARQ arrays `ndi_`, `tpc_`, `mcs_`,
  `nb_scheduled_rbs_` and `rballoc_sub_scheduled_` are one array of records, and a row of the last is a value.
- Feedback for the second transport block: it is stored but never read.
- Subframes 0 and 5 with their reserved groups, and bandwidths 15 and 75: the preprocessor results hold for any
  reserved groups, but the scheduler skips those subframes and the tables for those bandwidths do not agree.
- A report carries scheme (at most 28) and aggregation level (at most 3) directly; `Cqi` says which pairs a channel
  quality indicator gives, for DCI format 1. When a UE has no report for the cell, the code uses what the previous UE
  left in the locals; the model carries these as `Carry` and takes their initial values as a parameter.
- The fields `harq_round_`, the redundancy version and the constant DCI fields.
- StartNewSchedulingRound: the branches for subframes 0 and 5, which `run_central_scheduler` never takes, are left out.
- SortUesIsSortedPermutation: stands for `std::sort` with the strict part of `compare_stats`, because the comparison
  the code passes is not a valid one; collecting the keys from the reports is not modelled, and the preprocessor
  results hold for any order.
- FitMcsIsTightest: takes monotone block sizes as a hypothesis; the table itself, beyond its first column, is not part
  of this model.
- RunCentralScheduler: one agent and one cell; what the other cells of the call leave in the locals, the timing
  advance flag among them, comes in as `carry`. The last slot dealt with starts as frame 0, subframe 0, where the
  source leaves it uninitialised; missing scheduling or MAC entries of a UE are not modelled, since the RIB invariant
  rules the latter out.
- UpdateSubframe: feedback for a process number of 8 or more is ignored, where the source writes outside its arrays;
  uplink feedback, the liveness clock and the packing of frame and subframe into one number are left out.
- UpdateMacStats: only queue sizes are kept; channel quality and the other parts of a report reach the scheduler as
  parameters, and cell reports are left out.
- UpdateRib: what a message that does not parse leaves behind is up to the protocol buffer library and not modelled. MAC
  entries are values inside the agent's entry, so their sharing with the scheduler is not captured.
- RibMakesARun: about the messages of an agent alone; scheduling slots in between change the same MAC entries in the
  code, and from any matching state `MessageMatches` goes on.
- AgentReceivesPushOrder: a push to a full queue fails and is not part of what was sent; closing sessions and write
  errors are left out.
- Sockets, timers, threads, protocol buffer encoding and logging, the REST interface, and the delegation and
  reconfiguration messages: foreign calls or message filling.
- `remote_scheduler.cc`, `remote_scheduler_delegation.cc` and `remote_scheduler_eicic.cc`: not built.
