# Verified models of an LLM serving and near-memory simulator

The simulator runs a language model on a cluster of devices with near-memory
processing, one module at a time and device by device, and predicts times, commands
and traffic. This project models the parts of it that carry real protocols or
arithmetic and proves what they promise, for all inputs, all polling orders and all
runs. C++ integers are mathematical integers here and doubles are exact reals.

| file | models |
|---|---|
| `barrier.dfy`, `barrier_times.dfy`, `moe_program.dfy`, `cluster.dfy` | the engine that runs one module list on every device, with barriers; what its steps cost and the final clocks as longest chains of steps; the module list of a model with dense and mixture-of-experts layers; the polling loop |
| `batching.dfy`, `batching_proofs.dfy`, `batching_runs.dfy`, `batching_times.dfy`, `batching_liveness.dfy`, `batching_fairness.dfy`, `scheduler.dfy` | the continuous-batching scheduler: one step as a function, what filling does, invariants and reports over runs, the times a request records, completion, the exact condition for no starvation, and the scheduler object that performs the step in place |
| `quotients.dfy`, `dram.dfy`, `kernels.dfy` | DRAM address maps and their inverses, the tensor allocator, the command kernels, the closed form that replaces them |
| `routing.dfy`, `token_counts.dfy`, `moe_traffic.dfy` | the split of experts between fast and slow processors, token counts per expert, tokens sent and received |
| `trace.dfy`, `timeboard.dfy` | the stack parsers of printed traces, the board that records and prints them |
| `nearbank.dfy` | the latency formula of the near-bank units |

How the modelling is done:

- A graph step pairs the push and the pop of a leaf module; its duration is any
  non-negative function of step, device and expert counts. One fresh tensor feeds each
  `Sync`; the two all-reduces of the expert layer reuse a tensor that is already ready
  and rely on the barrier before them (`BarrierEngine.Guarded`).
- Methods change the fields of classes in place and are tied to functions of the old
  state; lemmas about those functions carry the properties over whole runs.
- Failed assertions of the program become `None` results.
- A printed line is a depth and a payload. Node references are positions in a list.
- Where the comments of the latency formula say that the general formula also serves a
  single row buffer, the code treats one buffer apart (`nearbank_pim.cpp:124-127`); the
  model follows the code.

Properties the code does not have in full, with the exact condition proved:

- the x8 filter picks the multiples of its period exactly when the number of banks is
  even, or a bank holds a single column (`CommandKernels.X8Exact`);
- the predicted count of reads and writes looks at a tensor's size only. At address 0 it
  is one too high exactly when the share of cube 0 is a multiple of the channels
  (`CommandKernels.PredictionAtZero`); at any other address, where every weight but the
  first lies, the exact difference and the exact condition for agreement are those of
  `CommandKernels.PredictionExact`, and `CommandKernels.PredictionMissesSecondWeight` is
  an input that fails;
- encoding after decoding, the logic address map gives the start of the bundle exactly
  when both cube counts agree or the address lies in the first round of cubes
  (`AddressMap.LogicRoundTrip`); decoding after encoding is the identity exactly when the
  numbers made with either cube count agree up to the capacity
  (`AddressMap.LogicRoundTripBack`);
- a scatter returns early on a device that sends nothing, and then counts nothing as
  received. Where nodes have eight devices, or one node at most eight, the cluster
  counts as many tokens received as sent, each device of a group that shares tokens
  sending them all, exactly when no such device has any to receive
  (`MoETraffic.BalancedExactly`); it does so for every demand only with a single rank,
  or when no device holds an expert (`MoETraffic.BalancedForEveryDemand`);
- without the early return the two loops agree by class of link exactly when a node has
  eight devices, a single node has at most eight, all devices are one rank, or no device
  holds an expert (`MoETraffic.LoopsConserve`): the sender divides the destination by 8,
  the receiver by the devices per node;
- the tokens a rank scatters are conserved for every demand exactly when the devices
  divide the experts (`MoETraffic.ScatterForEveryDemand`), and the scatter's window of
  experts is that of the expert layer exactly when fewer experts are left over than there
  are groups (`MoETraffic.WindowsAgree`);
- no request ever starves, in no run from the empty scheduler, exactly when nothing
  arrives, or: a rank has room, no request arrives at its total length, the prefill budget
  covers a full batch or nothing has to prefill, and all requests decode before they
  complete, or none does, or there is a single slot (`BatchingFairness.NeverStarvesExactly`).
  Requests of one output token next to longer ones are such a failing mix, and so is a
  request of one output token in decode mode: it completes only if the first step that
  runs it is a prefill step (`BatchingFairness.FirstStepDecides`).

## Model

| member | source | states |
|---|---|---|
| BarrierEngine.WindowsPartition | src/module/expert.cpp:56-63 | the device windows of a group size that divides the devices partition them: every member computes the same window |
| BarrierEngine.StepKeepsInv | src/module/module_graph.cpp:54-97 | every atomic step, of any device in any state, keeps arrival order, readiness, sync flags, clocks against the lockstep schedule, raise counts and expert counts |
| BarrierEngine.ReachableInv | src/module/module_graph.cpp:149-157 | the invariant holds after any schedule of polls from a restart |
| BarrierEngine.BarrierProtocol | src/module/module_graph.cpp:54-97 | at a fresh barrier nobody has passed before all members arrived, the clocks were raised exactly once when it opened, exactly the members still waiting carry the flag and stand at the gate time |
| BarrierEngine.FirstRaisesOthersConsume | src/module/module_graph.cpp:74-97 | the first member through finds all members there, raises each clock to the maximum and flags it; a later one changes no other device and consumes its own flag |
| BarrierEngine.GuardedGate | src/module/expert.cpp:183-196 | an all-reduce that reuses a ready tensor right after a full barrier finds all clocks level, so its raise changes nothing |
| BarrierEngine.ReadSeesOwnLayer | src/module/route.cpp:149-190 | under the invariant, an enabled reader of layer k sees the counts written for k |
| BarrierEngine.ReadsNeverStale | src/module/expert.cpp:136-157 | in every reachable state, a step that reads expert counts sees exactly those of its own layer: never stale, never the next layer's |
| BarrierEngine.LaggardMoves | src/module/module_graph.cpp:149-157 | the device furthest behind is never blocked |
| BarrierEngine.RoundsFinish | src/hardware/cluster.cpp:1084-1092 | after r rounds of polling all devices, in any orders, every device is past step r |
| BarrierEngine.FinalIsLockstep | src/hardware/cluster.cpp:1084-1092 | every finished run has the clocks and counts of the max-plus reference schedule, no flag left set, each barrier raised once per window |
| BarrierEngine.Confluence | src/hardware/cluster.cpp:1084-1092 | any two finished runs agree on all program counters, clocks, flags and counts |
| MoEProgram.ModelOk | src/module/decoder.cpp:70-90 | the module list of a model with any number of dense and mixture-of-experts layers in any order, and any valid degrees, is well-formed: barriers fresh or guarded, every count write and read fenced by barriers of all devices |
| MoEProgram.ModelReadsOwnLayer | src/module/expert.cpp:136-207 | in any run of the built model, dense layers in between or not, every read of the counts sees those routed for its layer |
| MoEProgram.ModelFinishes | src/model/llm.cpp:64-97 | the built model, whichever layers are dense, finishes under any polling order, with the clocks of the reference schedule |
| BarrierTimes.StepAdvances | src/module/module_graph.cpp:54-97 | in every reachable state an enabled step moves its device's clock by its price, on the counts routed for its own layer if it reads them and on none if not, by nothing if it is costless; a synchronising one first goes on from the latest clock of its window |
| BarrierTimes.CriticalPath | src/hardware/cluster.cpp:1084-1092 | the final clock of a device is the length of the longest chain of steps, each waiting for one before, in the prices and routed counts alone |
| BarrierTimes.OneDevice | src/hardware/cluster.cpp:1084-1092 | with one device, the sum of the prices of the steps that are not costless |
| MoEProgram.ModelCounts | src/module/expert.cpp:136-207 | the built list writes the counts of every MoE layer once and reads them in the scatter, the routing, each expert and the gather, and of no other layer |
| MoEProgram.ModelWaits | src/module/expert.cpp:136-207 | how often it waits for all devices, for an attention group and for an expert group, and that only the seven barriers of an MoE layer cost nothing |
| MoEProgram.ModelSize | src/model/llm.cpp:64-97 | its number of steps, in the numbers of layers of either kind |
| MoEProgram.HowManyMoE | src/model/llm.cpp:74-90 | how many layers are MoE layers by frequency, and after the first dense ones |
| ClusterRun.Cluster.ListReady | src/module/module_graph.cpp:45-52 | true exactly when the tensor is ready on every listed device |
| ClusterRun.Cluster.LatestTime | src/module/module_graph.cpp:78-84 | the maximum clock of the window |
| ClusterRun.Cluster.SyncDevices | src/module/module_graph.cpp:74-97 | raising or consuming in place is the flag and clock transition of the state machine |
| ClusterRun.Cluster.RunDevice | src/module/module_graph.cpp:149-157 | polling a device runs it until it is blocked or done, as a run of single steps |
| ClusterRun.Cluster.Run | src/hardware/cluster.cpp:1084-1092 | the polling loop terminates for any polling order with every graph finished, the reference counts and all flags clear, and each clock the length of the longest chain of steps that ends on its device; with one device, the sum of the prices |
| BatchingProofs.FillConserves | src/scheduler/scheduler.cpp:357-381 | admitting any number of requests conserves any additive measure of the requests, hence the multiset |
| BatchingProofs.FillRunningEffect | src/scheduler/scheduler.cpp:357-381 | from any rotation: a prefix of the queue is admitted in order, no batch exceeds its size, and afterwards the queue is empty or every batch is full, even when the ranks do not divide the total |
| BatchingProofs.FillFromEmptyIsBalanced | src/scheduler/scheduler.cpp:357-381 | from empty batches the sizes end within one of each other |
| BatchingRuns.OnePhase | src/scheduler/scheduler.cpp:260-309 | in each step only prefill or only decode tokens run, over all ranks |
| BatchingRuns.PrefillBudget | src/scheduler/scheduler.cpp:292-306 | a rank's prefill tokens total at most the budget |
| BatchingRuns.PrefillShare | src/scheduler/scheduler.cpp:296-306 | in a prefill step a prefilling resident gets all it still has to prefill, or as many tokens as go into the budget once for every prefilling resident of its rank, and not one fewer |
| BatchingRuns.ShortIsServed | src/scheduler/scheduler.cpp:296-306 | a resident left short has got at least as much as any other of its rank |
| BatchingRuns.BudgetIsUsed | src/scheduler/scheduler.cpp:296-306 | either some resident completes its prefill or less than one token for each is left of the budget |
| BatchingRuns.Landing | src/scheduler/sequence.cpp:35-50 | prefill never passes the input length and decode lands on the total; the stage flag ends exactly on the input length and the first-token time is frozen afterwards |
| BatchingRuns.StepKeepsOk | src/scheduler/scheduler.cpp:477-487 | every step keeps unique ids, unfinished residents without pending tokens, and batch sizes |
| BatchingRuns.RunKeepsOk | src/hardware/cluster.cpp:459-525 | so does every run |
| BatchingRuns.EnqueueInOrder | src/scheduler/sequence.cpp:6-31 | arrivals join the queue in order with the next ids, their lengths and what is cached, and nothing run |
| BatchingRuns.KeptInOrder | src/scheduler/scheduler.cpp:311-332 | the requests that stay in a batch keep their order |
| BatchingTimes.StepShows | src/scheduler/sequence.cpp:35-43 | a step adds its time to what a resident has recorded, to the first-token time and count while its stage flag is set, and stamps it if a measured step returns it; it changes no other record |
| BatchingTimes.TimesOfRun | src/scheduler/sequence.cpp:35-50 | over any run, a request returned as completed, or still there, has recorded exactly the time of the steps that found it resident, and of those that found its stage flag set, and their number |
| BatchingTimes.StageTime | src/scheduler/sequence.cpp:35-50 | for requests admitted before the end of their input those are the steps that found it prefilling |
| BatchingTimes.FirstTokenTime | src/scheduler/scheduler.cpp:318-329 | the first-token time reported is all the time the request has been resident, all of it prefill |
| BatchingTimes.ArrivalStartsAtZero | src/scheduler/sequence.cpp:6-31 | an arrival has nothing recorded |
| BatchingTimes.ClockOfRun | src/hardware/cluster.cpp:467-522 | the driver's clock moves by the time of the steps that are not skipped |
| BatchingRuns.RunReports | src/scheduler/scheduler.cpp:318-329 | over any run, requests held plus requests returned are conserved, for first tokens and for completions, and the stage and record flags track current < input |
| BatchingRuns.ReportedExactlyOnce | src/scheduler/scheduler.cpp:318-329 | a request admitted before the end of its input is returned exactly once as first token and exactly once as completed by the time it has left, however long it waits at its input length |
| BatchingRuns.ArrivalIsTracked | src/scheduler/sequence.cpp:6-31 | a fresh arrival with current < input < total meets the premises of that result |
| BatchingLiveness.StepDecreases | src/scheduler/scheduler.cpp:260-332 | in every fair mix, each step lowers a resident's lexicographic measure: own tokens left, free slots, tokens to prefill |
| BatchingLiveness.ResidentCompletes | src/scheduler/scheduler.cpp:260-332 | whatever of a fair mix arrives forever, every resident is returned as completed after finitely many steps; the mixes are all requests that decode, all that complete with their prefill, all that have nothing to prefill, or any with one slot |
| BatchingLiveness.QueuedCompletes | src/scheduler/scheduler.cpp:357-381 | in the same mixes every queued request is admitted and completes too |
| BatchingLiveness.OverBudgetNeverCompletes | src/scheduler/scheduler.cpp:296-306 | a rank with more prefilling requests than budget gives each zero tokens and completes none of them, ever |
| BatchingFairness.PresentCompletes | src/scheduler/scheduler.cpp:477-487 | in an endless execution of a fair mix, every request present at any time completes |
| BatchingFairness.BudgetIsNeeded | src/scheduler/scheduler.cpp:296-306 | a budget below the batch size starves some run, from the empty scheduler, of every class with a request to prefill |
| BatchingFairness.ShortArrivalsStarve | src/scheduler/scheduler.cpp:267-288 | in every configuration with two slots or more and any budget, a request waiting to decode is never returned as long as requests that complete with their prefill keep arriving |
| BatchingFairness.MixIsNeeded | src/scheduler/scheduler.cpp:222-237 | with two slots or more, both kinds of request together starve some run from the empty scheduler |
| BatchingFairness.OverrunNeverCompletes | src/scheduler/scheduler.cpp:318-329 | a request past its total length is never returned as completed, whatever else runs or arrives |
| BatchingFairness.FirstStepDecides | src/scheduler/scheduler.cpp:84-90 | a request resident at its total length is returned as completed, in any run, if and only if the first step that runs is a prefill step |
| BatchingFairness.WholeIsStarved | src/scheduler/scheduler.cpp:84-90 | a class with a request that arrives at its total length starves some run from the empty scheduler |
| BatchingFairness.NeverStarvesExactly | src/scheduler/scheduler.cpp:260-332 | for every configuration and every class of acceptable arrivals, no run from the empty scheduler starves a request if and only if the class is a fair mix for the budget and the slots |
| SchedulerRun.Scheduler.SetMetadata | src/scheduler/scheduler.cpp:260-309 | the nested loops write exactly the planned pending tokens of every batch |
| SchedulerRun.Scheduler.UpdateScheduler | src/scheduler/scheduler.cpp:311-332 | running, popping and recording in place keep and return exactly the specified requests |
| SchedulerRun.Scheduler.Pop | src/scheduler/sequence.cpp:87-95 | erases the request of that id and nothing else |
| SchedulerRun.Scheduler.FillRunningQueue | src/scheduler/scheduler.cpp:357-381 | the rotating loop is the filling function on the whole state |
| SchedulerRun.Scheduler.GetNumProcessToken | src/scheduler/scheduler.cpp:445-451 | the sum of all pending tokens |
| SchedulerRun.Scheduler.HittingStep | src/scheduler/scheduler.cpp:477-487 | one warm-up step is the step function and keeps the invariant |
| SchedulerRun.Scheduler.IterationStep | src/hardware/cluster.cpp:467-522 | one measured step is the step function, including the skip when no token runs |
| SchedulerRun.Scheduler.Drive | src/hardware/cluster.cpp:459-525 | any sequence of steps performed in place is the run of the specification |
| AddressMap.AddrToVec | src/dram/mmap_controller.cpp:44-74 | the shrinking-address loop is the mixed-radix coordinate, or fails beyond the last row |
| AddressMap.MapIsMixedRadix | src/dram/mmap_controller.cpp:44-74 | bundle b has coordinate v if and only if v is in bounds and b is its mixed-radix number, cube fastest and row slowest |
| AddressMap.CapacityExact | src/dram/mmap_controller.cpp:44-74 | a bundle has a coordinate if and only if it lies below the capacity |
| AddressMap.CoordinateReadsBack | src/dram/mmap_controller.cpp:21-30 | a vector is the coordinate of bundle i of an object if and only if its digits are in bounds and make the bundle's number, written out in `AddressMap.BundleNumber`, cube and channel being the two digits of its channel number |
| AddressMap.CoordinateInjective | src/dram/mmap_controller.cpp:21-30 | with cube and channel folded into pair and half, equal coordinates mean equal bundles |
| AddressMap.AddrToVecLogic | src/dram/mmap_controller.cpp:76-114 | the logic decoder digit by digit |
| AddressMap.VecToAddrLogic | src/dram/mmap_controller.cpp:116-155 | the accumulator is the Horner form of the coordinate |
| AddressMap.LogicMapIs | src/dram/mmap_controller.cpp:76-114 | the logic map is the inverse of its mixed-radix number, up to its capacity |
| AddressMap.LogicReadsBack | src/dram/mmap_controller.cpp:32-42 | and so are its folded vectors |
| AddressMap.LogicRoundTrip | src/dram/mmap_controller.cpp:76-155 | below capacity, encoding a decoded address gives the start of its bundle if and only if the cube counts agree or the bundle is below the logic cubes |
| AddressMap.LogicRoundTripBack | src/dram/mmap_controller.cpp:76-155 | decoding an encoded in-range coordinate gives it back if and only if its cube is a logic cube and the numbers made with either cube count agree up to the capacity |
| AddressMap.LogicRoundTripBackBelow | src/dram/mmap_controller.cpp:76-155 | below the capacity, if and only if the cube counts agree or only a cube below the logic cubes is set |
| AddressMap.LogicRoundTripBackEqual | src/dram/mmap_controller.cpp:76-155 | with equal cube counts, always |
| AddressMap.LogicWrapsOntoItself | src/dram/mmap_controller.cpp:76-155 | above the capacity some coordinates come back although the cube counts differ and more than the cube is set |
| AddressMap.MMapController.SetNormal | src/dram/mmap_controller.cpp:158-169 | weights take the next address, activations and caches address 0 |
| AddressMap.MMapController.SetAll | src/dram/mmap_controller.cpp:158-169 | any sequence of allocations is the placement function |
| AddressMap.PlaceExact | src/dram/mmap_controller.cpp:158-169 | every weight stands at the start plus the bytes of the weights before it, activations and caches at 0, with their sizes; the next start is behind all weights |
| AddressMap.PlaceOrdered | src/dram/mmap_controller.cpp:158-169 | weight tensors lie one behind the other within the allocated range |
| AddressMap.WeightsDisjoint | src/dram/mmap_controller.cpp:158-169 | bundles of two weight tensors never share a coordinate, for any sizes, also those no multiple of the granularity, within capacity |
| CommandKernels.Gemv | src/dram/pimkernel/GEMV.cpp:8-79 | by processor and bandwidth: which hardware and operands it fails for, that others do nothing, and else exactly which bundles of the operand it emits, and that they sweep the multiples of the product cubes x channels x ranks x bank groups, times banks (16), times two (8, even banks), or that product (4), on the logic units logic cubes x channels x bank groups x two |
| CommandKernels.PickedExactly | src/dram/pimkernel/GEMV.cpp:21-78 | a filter picks a bundle if and only if its number is a multiple of the filter's period (banks even for x8) |
| CommandKernels.X8Exact | src/dram/pimkernel/GEMV.cpp:33-43 | the x8 filter follows its period throughout the memory if and only if the banks are even or a bank is one column |
| CommandKernels.GemvSweeps | src/dram/pimkernel/GEMV.cpp:21-78 | from any address, the commands are the coordinates of the multiples of the period among the bundles, in order, one each; failure exactly when a bundle is beyond the memory |
| CommandKernels.GemvCountFromZero | src/dram/pimkernel/GEMV.cpp:21-78 | from address 0 the count is the bundles over the period, rounded up |
| CommandKernels.CommandsDistinct | src/dram/pimkernel/GEMV.cpp:21-78 | no command is emitted twice, by any filter and any number of banks, for near-bank operands always and for logic operands below the logic capacity |
| CommandKernels.WiderLanesDoLess | src/dram/pimkernel/GEMV.cpp:21-59 | every x16 command is an x8 command and every x8 command an x4 command |
| CommandKernels.ReadOrWrite | src/dram/pimkernel/Read.cpp:7-30 | the read and write kernels fail exactly beyond the memory, else emit exactly the bundles of channel pair 0; from address 0, the rounded-up shares of the first two channels |
| CommandKernels.PlainCount | src/dram/pimkernel/Write.cpp:16-25 | from any address within the memory, under either map, the number of commands is what the bundles before the end hold on channel pair 0 less what those before the start hold |
| CommandKernels.DramInterface.RunIdeal | src/hardware/device.cpp:179-204 | resets and fills the counters of the request kind; an empty tensor leaves them |
| CommandKernels.PredictionExact | src/hardware/device.cpp:190-203 | with two channels or more, at any address: the exact difference between the closed form and the enumerated count, and when it is zero |
| CommandKernels.PredictionAtZero | src/hardware/device.cpp:190-203 | at address 0 the closed form is right, except one higher exactly when the share of cube 0 is a multiple of the channels |
| CommandKernels.PredictionOnRound | src/hardware/device.cpp:190-203 | the same for every tensor that starts a new round over the channels of cube 0 |
| CommandKernels.PredictionMissesSecondWeight | src/dram/mmap_controller.cpp:158-169 | a second weight of one bundle, placed by the allocator: no command is enumerated, one is predicted, and its share is no multiple of the channels |
| ExpertSplit.CostsAre | src/module/route.cpp:38-60 | the cost of an expert on either side is the least time of one unit or more that does its work at the rate the settings give |
| ExpertSplit.GroupIs | src/module/route.cpp:85-103 | group number k is the k-th run of experts |
| ExpertSplit.Sort | src/module/route.cpp:17-32 | a permutation by falling tokens |
| ExpertSplit.SortedByList | src/module/route.cpp:13-32 | the sort key of a group is the sum of the list entries of its ids: the groups come by falling sums |
| ExpertSplit.NoLaterImproves | src/module/route.cpp:54-66 | once a step does not lower the makespan no longer prefix does |
| ExpertSplit.Greedy | src/module/route.cpp:111-125 | the early stop returns the ids of the shortest prefix of least makespan |
| ExpertSplit.SideTimes | src/module/route.cpp:54-66 | the running times are the cost sums over the experts of the list on either side |
| ExpertSplit.SidesPartition | src/module/route.cpp:89-103 | every expert of the list is on exactly one side, once, and no other id is |
| ExpertSplit.GetIdxHighOptimal | src/module/route.cpp:34-68 | per expert: distinct valid ids in the order of the sorted list, a shortest prefix of it with the least makespan of all its prefixes, the makespan taken over the experts themselves |
| ExpertSplit.GetIdxHigh | src/module/route.cpp:70-127 | per group of a quarter of the list: the same; fails exactly on more than four experts not divisible by four |
| TokenCounts.DemandTotal | src/scheduler/sequence.cpp:173-202 | for any selector of top-k experts the counts add up to tokens times top-k |
| TokenCounts.AggregateTotal | src/module/route.cpp:165-172 | adding up by expert or by batch is the same |
| TokenCounts.ColumnIs | src/module/route.cpp:165-172 | the aggregated count of an expert is how often the tokens of all batches together select it |
| TokenCounts.RunningQueue.UpdateExpert | src/scheduler/sequence.cpp:152-206 | the nested loops count, for each expert, how often the batch's tokens select it |
| TokenCounts.RunningQueue.AggregateExpert | src/module/route.cpp:149-190 | on rank 0 every batch ends with its own counts kept aside and the counts of all, each the number of times its expert occurs among the selections; the check of the total never fails; other ranks change nothing |
| MoETraffic.SendTokens | src/module/communication.cpp:138-156 | the send loop computes the tokens over each class of link |
| MoETraffic.ReceiveTokens | src/module/communication.cpp:205-224 | the receive loop likewise, when it is reached |
| MoETraffic.Scatter | src/module/communication.cpp:117-224 | the forward pass of one device: what it sends, and what it counts as received, which is nothing if it sends nothing |
| MoETraffic.WindowInRange | src/module/communication.cpp:140-141 | the expert window of a device is that of its group and stays among the experts |
| MoETraffic.LoadsTile | src/module/communication.cpp:138-156 | the windows of the groups tile the experts, and every device of a group carries the whole window |
| MoETraffic.ScatterConserves | src/module/communication.cpp:138-156 | own, intra-node and inter-node tokens of a rank total the group size times tokens times top-k if and only if no token goes to an unheld expert; none does when the devices divide the experts |
| MoETraffic.ScatterForEveryDemand | src/module/communication.cpp:138-156 | they do for every demand if and only if the devices divide the experts |
| MoETraffic.WindowsAgree | src/module/expert.cpp:56-61 | the scatter's expert window is the expert layer's if and only if fewer experts are left over than there are groups |
| MoETraffic.OwnExactly | src/module/communication.cpp:126-139 | tokens stay at home exactly between devices with the same quotient by the tensor-parallel degree, as the sender and the receiver see it |
| MoETraffic.SharersSendTheSame | src/module/communication.cpp:126-156 | devices that share tokens send the same on every class of link |
| MoETraffic.ClassesAgree | src/module/communication.cpp:138-224 | where the nodes agree, or in a single rank, sender and receiver see the same class of link |
| MoETraffic.CellsAgree | src/module/communication.cpp:138-224 | there the cluster sends on every class as many tokens as it can receive, times the devices that share each |
| MoETraffic.LoopsConserve | src/module/communication.cpp:138-224 | the two loops alone: they do so for every demand if and only if nodes have eight devices, or one node has at most eight, or all devices are one rank, or no device holds an expert |
| MoETraffic.BalancedExactly | src/module/communication.cpp:166-224 | with the early return, where the nodes agree: what is sent is what is counted, on both classes, if and only if no device that sends nothing has tokens to receive |
| MoETraffic.IdleDeviceMisses | src/module/communication.cpp:166-168 | with tokens on one rank alone, the first device of the next rank sends nothing, has tokens to receive and counts none |
| MoETraffic.BalancedForEveryDemand | src/module/communication.cpp:138-224 | with the early return, what is sent is counted for every demand if and only if there is a single rank or no device holds an expert |
| TraceListing.ChildrenExactly | tools/parse_layer.py:45-55 | a line's children are exactly the lines whose nearest earlier shallower line it is, in input order |
| TraceListing.OneParent | tools/parse_layer.py:48-54 | a line has a parent exactly if an earlier line is shallower, and only one |
| TraceListing.PoppedStack | tools/parse_layer.py:50-54 | the stack holds exactly the open lines, with strictly increasing depths, for any depth sequence |
| TraceListing.BuildTree | tools/parse_layer.py:45-55 | for any depths, every node ends with exactly those children |
| TraceListing.BuildView | tools/view_result.py:102-125 | the same after dropping unparsable lines; the root is the first parsed line |
| TraceListing.ListingParses | src/module/timeboard.cpp:99-115 | wherever the listing of a tree stands, its first line carries that tree: parsing undoes printing |
| TraceListing.FirstOfSiblings | tools/parse_layer.py:45-55 | from the listings of several trees exactly the first comes back |
| TimeBoards.BalancedIsTrace | src/module/timeboard.h:18-27 | every balanced trace of openings and closings is the trace of some trees |
| TimeBoards.RunTrace | src/module/timeboard.h:18-27 | replaying the trace of a tree adds exactly its listing and returns to the same open stamp |
| TimeBoards.TimeBoard.PushTimestamp | src/module/timeboard.h:90-93 | the new stamp hangs below the current one, one level deeper, and becomes current |
| TimeBoards.TimeBoard.PopTimestamp | src/module/timeboard.h:95-97 | the current stamp gets its time and its parent becomes current |
| TimeBoards.TimeBoard.Print | src/module/timeboard.cpp:99-115 | the recursive print is the preorder listing of the recorded tree, the board itself without a line |
| TimeBoards.RoundTrip | src/module/timeboard.h:84-126 | record, print, parse: any balanced trace prints as the listing of its trees and both parsers return exactly the first |
| TimeBoards.SelectLayer | tools/parse_layer.py:116-130 | the selection loop cuts from the first layer line to the first other line not deeper than the last layer line |
| TimeBoards.SelectionIs | tools/parse_layer.py:116-130 | the cut starts at the first layer line, goes on with layer lines and lines deeper than the latest one, and ends before the first line that is neither |
| TimeBoards.SelectionIsLayer | tools/parse_layer.py:116-130 | if the first layer has no layer inside and none follows at once, the cut is exactly its listing |
| TimeBoards.SelectionReturnsLayer | tools/parse_layer.py:116-136 | if the first layer has no layer inside, the cut parses to exactly that layer's tree, whatever follows |
| NearbankLatency.PipelineBounds | src/dram/nearbank/nearbank_pim.cpp:123-135 | the latency lies between the longer of filling and computing and one fill more, and is one of the two with one buffer, else the time of all fills or one fill and the computing |
| NearbankLatency.PipelineMono | src/dram/nearbank/nearbank_pim.cpp:106-135 | more bytes or more computing never take less time, across the ceiling and the step from one buffer to several |
| NearbankLatency.LatencyMonotone | src/dram/nearbank/nearbank_pim.cpp:59-207 | the latency is monotone in M, K and N |
| NearbankLatency.BaseBelow | src/dram/nearbank/nearbank_pim.cpp:137-207 | reduction and unpacking never shorten the plain product |
| NearbankLatency.PartsAre | src/dram/nearbank/nearbank_pim.cpp:64-207 | the times of product, sums and unpacking, each as a product of banks, width and cycle against work and element size |
| NearbankLatency.ComputeGemvLatency | src/dram/nearbank/nearbank_pim.cpp:59-207 | the staged recomputations end in the pipeline of all processing time, within the bounds, with a breakdown that adds up and stands against banks, bandwidth, widths and cycles by product equations |

## Left out

- Parallel fast and slow lanes inside a device: one clock per device, as after a push without parallel execution.
- Per-operator cost functions, the execution cache, energy and utilisation tables, memory-size estimates: a step's duration is any non-negative value.
- The all-reduce and gather durations are such values too; the tokens of the gather are not modelled.
- MoETraffic.Scatter: models the counted tokens, not the times computed from them, nor their division by the devices that share them; the hidden size and the bytes of an element, by which the tokens are multiplied before the test for nothing sent, are taken as positive.
- MoETraffic.LoopsConserve: and the other laws of shared tokens are stated where the devices that share tokens stand on one node, that is where the degree divides the devices per node; `MoETraffic.OwnExactly` and `MoETraffic.ScatterConserves` hold for any degree.
- CommandKernels.DramInterface.RunIdeal: models the activate, read and write counters, not the other fields that the reset clears.
- CommandKernels.PredictionExact: is stated for two or more channels.
- AddressMap.LogicRoundTripBack: is stated for banks below four, as the logic map is built for two by two banks.
- TimeBoards.SelectionReturnsLayer: is stated for layers without a layer line inside; with one inside, the cut may end early.
- The disaggregated path and injection-rate arrivals: arrivals are arbitrary lists at each step.
- Random and list-based expert selectors: any choice of top-k valid experts.
- Heap identity of requests, tensors and stamps: requests and nodes are values and positions; sharing of one object under two names is not modelled.
- BatchingRuns.ReportedExactlyOnce: is stated for requests admitted with current below input; in decode mode the stage flag stays set for ever, since it is cleared only on reaching the input length.
- Ramulator, configuration files, CSV, Gantt and HTML output, and regular expressions on printed lines.
- Overflow of C++ integers, including the casts of bundle counts to `int`, and rounding of doubles.
- Order of equal elements in the library sort: the split is proved for any sorted order with the token counts falling.
