# LiteDRAM: a verified model

A Dafny model of LiteDRAM's controller, its frontends and its command-level PHY streams, with proofs of what they
promise. Every Migen module is a clocked state machine: a `State` of its registers, functions for its combinational
signals, and a `Step` for the clock edge. Beside most of them stands a class with the same registers whose `Tick` method
assigns them statement by statement as the source does, and is proved to compute exactly that step. The properties are
then proved of every run: every sequence of inputs, of any length, for every configuration.

`dafny verify dfyconfig.toml` checks the whole project.

## The controller

* `Common`, `Bits`, `AddressPath`, `Arbiters`, `TimingControllers`: bit slices, address mapping, the round-robin arbiter
  and the timing counters, with their register widths and wrap-arounds.
* `DramBank` is the reference: one DRAM bank as the command bus sees it, with the legality rules and distances of
  section 4.1 of JESD79-3F and of the rule list in `litedram/phy/model.py`. It knows nothing of the controller.
* `BankMachines`, `Multiplexers`, `Refreshers`, `Crossbars`, `PhyModels` model one source file each.
* `Steering` and `Controllers` put them together: crossbar, bank machines, multiplexer, refresher and memory model in one
  clock cycle, and runs of it. Beside the registers a state carries observers (a `DramBank` for each bank, distances of
  device-wide commands) that nothing in the controller reads.
* `ControllerSafety` (what every cycle keeps), `ControllerTiming` (distances between any two commands),
  `CrossbarOrder` and `DataStrobes` (who owns a bank, who is strobed when), `PhyTracking` (the memory model follows),
  `EndToEnd` (all of it is a plain memory), `Deliveries` (which accepted command and which accepted writes each read
  strobe answers with), `RefreshProgress` (a requested refresh starts).
* `Turnarounds`: how old the last write is when a read is issued, also when a refresh came between.
* `SoloRuns`, `LatencyLimits` and `TurnaroundLimits`: runs in which every command is issued at a known cycle, and with them
  the exact limit on the PHY's write latency and the exact least distance from a write to a read.

Library parts are written out from their contracts: a `SyncFIFO` accepts while its level is below its depth (at depth 0
it is a wire), `Buffer` is a one-word register that reloads when empty or taken, `RoundRobin` with `SP_CE` moves to the
next other requester when enabled, `delayed_enter` is a chain of waiting states, `timeline` a counter with events.

Assumptions on a configuration are named predicates:

* `Config.Valid`: at most ten column bits, alignment within the column, the bank field no higher than the row/column
  address, and phase numbers below the number of phases. Command addresses are not truncated: the source's command bus
  has as many address lines as the larger of row and column bits, so the model is of geometries in which that is at
  least eleven and line 10, the flag of auto-precharge and Precharge All, exists.
* `LatencyFits`: the PHY's write latency exceeds neither the controller's write-to-precharge nor its write-to-read time.
  Only the statements about memory contents need it, and `CorrectIffLatencyFits` shows that they need exactly it.
* `Boots`: with refresh and postponing above one, a refresh takes no longer than tREFI. From reset the sequencer's counter is not zero
  (`litedram/core/refresher.py:80-92`), so it runs once on its own; no command of that run reaches the device, and it is
  over before the first request exactly under this condition (`ResetSettles`).

A run (`IsRun`) starts in a state that `Initial` admits: every register at reset, except that the refresher's timer, its
postponer and its calibration timer may hold any values, and its sequencer may be anywhere in its own run, as long as that
run is over before the first request. Reset itself is such a state under `Boots`. So what is proved of all runs covers more
than the runs from reset; the constructed runs (`TooLateForRead`, `TooLateForRow`, `GapAttained` and `RefreshWaits`) all start
in `Start`, which under `Boots` is reset; the room that the last two need for a refresh implies `Boots`.

## Frontends and streams

* `UpConverters` and `UpConverterRefinement`: narrow commands grouped into wide ones.
* `Wishbones`: the Wishbone burst converter with its merge buffer and read cache.
* `DmaReaders`, `DmaWriters`, `DramFifos`: reservation counters, and the FIFO in DRAM with its bypass.
* `BitSlips`, `Serdes`: constant bit slips, serializer and deserializer.
* `Lpddr4Commands`, `Lpddr4Streams`, `Lpddr4Pipelines`: command encoder, simulator decoder, and the pipeline between.
* `ModelInit`, `TimingConversion`: the memory image's way into the banks, and nanoseconds to cycles.

## What the proofs found

* The DRAM FIFO keeps its order on all runs if and only if it has no bypass, or depth plus the reader's depth is below two
  to the address width (`OrderedIffCountable`). The register `dram_cnt` (`litedram/frontend/fifo.py:311`) is as wide as
  an address, but counts the words in the ring plus those in the reader: for a ring that fills the address space it wraps
  to zero while words are in DRAM, bypass starts early, and a later word overtakes them. `Overtakes` builds such a run.
* The native address mapping reaches every cell if and only if the bank field starts no higher than the top of the
  row/column address (`EveryCellReachable`); a larger `bank_byte_alignment` loses the top bank.
* The controller is a plain memory on all runs if and only if the PHY's write latency is at most the write-to-precharge
  time and at most the write-to-read time, both computed from `cwl` (`CorrectIffLatencyFits`; `litedram/core/bankmachine.py:157-158`,
  `litedram/core/multiplexer.py:281-284`). Above the one, `TooLateForRow` builds a run in which the data of a write
  arrives after its row was closed and is lost; above the other, `TooLateForRead` one in which a read overtakes it.
* After a refresh the multiplexer goes to READ without looking at the write-to-read timer
  (`litedram/core/multiplexer.py:391-397`). The write-to-read time is therefore kept on all runs if and only if it is at
  most what write recovery, the postponed refreshes, the next activate and tRCD take together (`ReadGapIsLeast`). The run
  that shows the distance attained begins with every register at reset (`GapAttained`); where a refresh is the shorter
  way, its write is issued when the first one falls due, after `postponing` times tREFI cycles, or one cycle before.
* In `Serializer`, asserting `reset` leaves the two sides of a link in step from the last two counts only, when the ratio
  is a power of two (`ResetAligns`): from any other, the sender counts on while the receiver clears. The cause is
  `reset | cnt == ratio - 1` (`litedram/phy/utils.py:253`), which compares `reset | cnt` with `ratio - 1`; so `reset` clears
  the counter exactly when `cnt` with bit 0 set is `ratio - 1`, or when it wraps anyway (`ResetClears`). With four slices
  it takes zero to one (`ResetMisses`).
* `Serializer` and `Deserializer` pass every word through unchanged if and only if the ratio is a power of two
  (`TransparentIffPower`): the receiving counter (`litedram/phy/utils.py:297-298`) wraps only by its own width.
* The command chooser takes an activate although `want_activates` is low, because it is neither read nor write; it is the
  `ready` signal that holds it back (`litedram/core/multiplexer.py:67-73` and 350-380). The model follows the code.

## Model

| member | source | states |
|---|---|---|
| `AddressPath.SlicerRoundTrip` | litedram/core/bankmachine.py:31-49 | Row and column of an address give the address back, for any geometry; column bit 10 is always free for auto-precharge. |
| `AddressPath.ModelCellIndex` | litedram/phy/model.py:67-70 | With at most ten column bits the memory model's cell index is the bank-local address. |
| `AddressPath.AddressRoundTrip` | litedram/common.py:358-370 | Native address to bank and row/column address and back is the identity. |
| `AddressPath.CellRoundTrip` | litedram/common.py:358-370 | Bank and row/column address to native address and back is the identity. |
| `AddressPath.EveryCellReachable` | litedram/core/crossbar.py:130-138 | Every cell of every bank has a native address exactly when the bank field starts within the row/column address. |
| `Arbiters.GrantsRequester` | litedram/core/multiplexer.py:76-103 | If anyone requests, whoever holds the round-robin grant next requests. |
| `TimingControllers.TxxExact` | litedram/common.py:393-416 | A delay counter in closed form: ready exactly when the last event is old enough, or, with none since reset, when the wrapped count has run out. |
| `TimingControllers.TxxController.Tick` | litedram/common.py:393-416 | The counter's clock edge is the step function. |
| `TimingControllers.TfawController.Tick` | litedram/common.py:419-439 | The window's clock edge, counting by a loop, is the step function, for any input. |
| `TimingControllers.FourActivateWindow` | litedram/common.py:419-439 | Any five activates that respect `ready` span more than tFAW cycles, for every tFAW, also where the count truncates. |
| `DramBank.LegalTraceSpacing` | litedram/phy/model.py:149-174 | A command trace that the reference bank accepts step by step keeps tRP, tRCD, tRC, tRAS and write-to-precharge between any two commands. |
| `DramBank.AutoPrechargeSpacing` | litedram/phy/model.py:149-174 | A row closed by auto-precharge is not reopened before tRAS, write recovery and tRP have passed. |
| `BankMachines.IssuedMeaning` | litedram/core/bankmachine.py:133-251 | The record offered to the multiplexer, decoded as a DRAM command, is exactly the command its FSM state means. |
| `BankMachines.QueueMoves` | litedram/core/bankmachine.py:116-126 | A cycle moves requests through FIFO and buffer without losing, inventing or reordering any. |
| `BankMachines.StepInv` | litedram/core/bankmachine.py:116-253 | In every reachable state the issued command is one the reference bank accepts, and timers, row tracking and queue stay consistent with the bank. |
| `BankMachines.CompilesRequests` | litedram/core/bankmachine.py:116-253 | For every request stream and refresh pattern, the commands issued to a DRAM bank are legal and perform exactly a prefix of the accepted requests, in order, with their row, column and direction. |
| `BankMachines.BankSpacing` | litedram/core/bankmachine.py:157-168 | Minimum distances tRP, tRCD, tRC, tRAS and write-to-precharge between any two commands of a bank, on every run. |
| `BankMachines.RefreshHolds` | litedram/core/bankmachine.py:242-251 | A granted refresh stays granted while requested, and a refreshing bank machine issues nothing. |
| `BankMachines.ServedIsStrobed` | litedram/core/bankmachine.py:184-211 | The buffered request leaves in exactly the cycles in which one of its data strobes is raised. |
| `BankMachines.BankMachine.Signals` | litedram/core/bankmachine.py:184-253 | The FSM's imperative outputs and next state are those of the specification. |
| `BankMachines.BankMachine.Tick` | litedram/core/bankmachine.py:116-253 | One clock cycle of the object is the step function. |
| `Refreshers.ResetSettles` | litedram/core/refresher.py:74-93 | The run that the sequencer makes on its own after reset is over before the first request exactly when there is no postponing or a refresh takes no longer than tREFI. |
| `Refreshers.StepInv` | litedram/core/refresher.py:35-70 | Every refresher command the device hears is legal when issued, with tRP, tRFC and tZQCS kept, the request ends only once the device has recovered, and the first request finds the sequencer at rest. |
| `Refreshers.Refresher.Tick` | litedram/core/refresher.py:222-307 | One clock cycle of timer, postponer, sequencer, executers and FSM is the step function. |
| `Multiplexers.TimersStepInv` | litedram/core/multiplexer.py:262-286 | The tRRD, tFAW, tCCD and tWTR controllers keep track of the device's last commands. |
| `Multiplexers.Multiplexer.Control` | litedram/core/multiplexer.py:350-404 | The read/write/refresh FSM's next state, with availability scanned over all banks. |
| `Multiplexers.Multiplexer.Choose` | litedram/core/multiplexer.py:51-115 | What the two choosers accept under the activate and column gates. |
| `Multiplexers.Multiplexer.Tick` | litedram/core/multiplexer.py:218-404 | One clock cycle of the object is the step function. |
| `Steering.ServingMeaning` | litedram/core/multiplexer.py:146-193 | From the steered phases the memory model decodes exactly the activate or precharge the bank was told, and no other. |
| `Steering.ServingColumns` | litedram/core/multiplexer.py:335-347 | From the steered phases it decodes exactly the accepted read or write, on the request phase. |
| `Steering.IdleDecode` | litedram/core/multiplexer.py:391-404 | Outside READ and WRITE only the refresher's Precharge All is decoded. |
| `Crossbars.Crossbar.Route` | litedram/core/crossbar.py:147-173 | The loop over banks routes each bank's granted request and moves each arbiter as specified. |
| `Crossbars.Crossbar.Readys` | litedram/core/crossbar.py:174-175 | Each master is ready exactly when some bank granted to it is selected and ready. |
| `Crossbars.Crossbar.SelectWriter` | litedram/core/crossbar.py:203-214 | The write data path follows the one master whose strobe is up, and no master when several or none are. |
| `Crossbars.Crossbar.ShiftLines` | litedram/core/crossbar.py:174-194 | Each master's delay line takes in the strobe of the banks granted to it. |
| `Crossbars.Crossbar.Tick` | litedram/core/crossbar.py:125-214 | One clock cycle of the object is the step function; its outputs are the banks' requests, the masters' `cmd.ready` and data strobes, and the master that drives the write data. |
| `PhyModels.CellInRange` | litedram/phy/model.py:47-86 | Row and column within their widths address a cell of the bank's memory. |
| `PhyModels.BankModel.Tick` | litedram/phy/model.py:47-86 | One clock cycle of a bank over its memory array is the step function; what it drives onto the bus is the addressed word or zero. |
| `Controllers.StartIsInitial` | litedram/phy/model.py:589-598 | Every valid configuration has an initial state for every set of memory images; where the sequencer's own run fits before the first request, it is every register's reset value. |
| `Controllers.RunsExist` | litedram/core/crossbar.py:125-214 | Every input sequence has a run from every initial state, so the properties of all runs are not empty. |
| `ControllerSafety.StepInv` | litedram/core/multiplexer.py:320-404 | One cycle of the whole controller keeps each bank machine's contract with the refresher, refresh exclusion, and the device-wide timers. |
| `ControllerSafety.RunInv` | litedram/core/multiplexer.py:320-404 | Every state of every run satisfies that invariant. |
| `ControllerSafety.ContractKept` | litedram/core/refresher.py:272-307 | Precharge All comes only while every bank grants, and the request is dropped only when each bank has been closed for tRP. |
| `ControllerTiming.CommandsAreLegal` | litedram/core/bankmachine.py:184-253 | On every run every command a bank receives is one the reference bank accepts at that moment. |
| `ControllerTiming.PerBankSpacing` | litedram/phy/model.py:149-174 | On every run any two commands of a bank keep tRP, tRCD, tRC, tRAS and write-to-precharge, the refresher's Precharge All included. |
| `ControllerTiming.ActivateSpacing` | litedram/core/multiplexer.py:262-272 | Activates of any two banks are at least tRRD apart. |
| `ControllerTiming.FourActivates` | litedram/core/multiplexer.py:266-272 | Any five activates of the device span more than tFAW cycles. |
| `Turnarounds.RunTurn` | litedram/core/multiplexer.py:391-402 | In every state of every run in which reads are served, the last write is older than the write-to-read time, or a refresh has ended since and every open row was opened after it; a refresh under way has taken no longer than the last write is old. |
| `Turnarounds.ReadsLate` | litedram/core/multiplexer.py:391-402 | A read is accepted only once the last write is `ReadGap` cycles old: one more than the write-to-read time or, if that is less, write recovery, all postponed refreshes, an activate and tRCD. |
| `ControllerTiming.ColumnSpacing` | litedram/core/multiplexer.py:274-286 | Column commands are at least tCCD apart, and a read comes at least `ReadGap` cycles after any write. |
| `ControllerTiming.RefreshExcludesCommands` | litedram/core/multiplexer.py:391-397 | From a Precharge All until the request is dropped no bank command is accepted. |
| `ControllerTiming.RefreshOnlyPrecharged` | litedram/core/refresher.py:35-70 | Auto Refresh and ZQ calibration come only with every bank closed for at least tRP. |
| `ControllerTiming.RefreshRecovery` | litedram/core/refresher.py:173-307 | The next activate is at least tRFC after an Auto Refresh and tZQCS after a calibration. |
| `CrossbarOrder.GrantsAreStable` | litedram/core/crossbar.py:147-175 | A bank's grant never changes while it holds unfinished commands, and no master has any in two banks. |
| `CrossbarOrder.MasterServedInOrder` | litedram/core/crossbar.py:147-201 | Each master is served exactly a prefix of its accepted commands, in its own order; at most one queue's worth is missing. |
| `DataStrobes.WriteStrobes` | litedram/core/crossbar.py:181-187 | A master's write strobe is up exactly when its write was issued write latency plus one cycles before. |
| `DataStrobes.ReadStrobes` | litedram/core/crossbar.py:189-194 | A master's read strobe is up exactly when its read was issued read latency plus one cycles before. |
| `DataStrobes.OneWriteStrobe` | litedram/core/crossbar.py:203-214 | At most one master is strobed for write data in a cycle. |
| `PhyTracking.PhasesDecode` | litedram/core/multiplexer.py:181-193 | One cycle after issue the memory model decodes exactly the command each bank was told. |
| `PhyTracking.RowHeldForWrite` | litedram/phy/model.py:47-57 | From its decoding until the bank can have been closed, a write finds its row open in the memory model. |
| `EndToEnd.LandingAt` | litedram/phy/model.py:623-654 | The write reaching a bank's memory was issued write latency plus one cycles before. |
| `EndToEnd.DataAt` | litedram/core/crossbar.py:203-214 | In that cycle the data bus carries the word of the master that issued it. |
| `EndToEnd.RunHolds` | litedram/phy/model.py:47-86 | With a fitting write latency, on every run the banks hold exactly what a flat memory holds after the landed writes. |
| `EndToEnd.NoRecentWrite` | litedram/core/multiplexer.py:281-286 | With a fitting write latency, when a read is issued no write's data is still on its way. |
| `EndToEnd.ReadsReturnMemory` | litedram/core/crossbar.py:147-218 | With a fitting write latency, whenever a master's read strobe is up, the bus carries the word that a plain byte-maskable memory holds at its native address after all writes issued before its read. |
| `EndToEnd.LastWriterIsLast` | litedram/phy/model.py:47-86 | The last writer of a byte, as used below, is a cycle that wrote it after which none did, or there was none. |
| `EndToEnd.LastWriteWins` | litedram/phy/model.py:47-86 | A byte of that memory is the last one written there with its byte enable set, or the initial image's. |
| `EndToEnd.BankServedInOrder` | litedram/core/bankmachine.py:116-126 | When a command is issued, exactly the commands its bank accepted before it have been performed. |
| `LatencyLimits.CorrectIffLatencyFits` | litedram/core/multiplexer.py:281-284 | Reads return the flat memory on all runs exactly when the PHY's write latency exceeds neither the write-to-precharge nor the write-to-read time. |
| `LatencyLimits.TooLateForRead` | litedram/core/multiplexer.py:398-402 | With a larger write latency than write-to-read time, a constructed run reads a cell before the data of its last write arrives. |
| `LatencyLimits.TooLateForRow` | litedram/core/bankmachine.py:157-161 | With a larger write latency than write-to-precharge time, a constructed run closes the row under a write, whose data is lost. |
| `TurnaroundLimits.GapAttained` | litedram/core/multiplexer.py:391-402 | A constructed run from reset, through the first refresh where that is the shorter way, has a read exactly `ReadGap` cycles after a write. |
| `TurnaroundLimits.ReadGapIsLeast` | litedram/core/multiplexer.py:281-286 | A distance is kept between every write and every later read of every run exactly when it is at most `ReadGap`; so the write-to-read time is kept on all runs exactly when a refresh with the activate after it takes no less. |
| `TurnaroundLimits.RefreshWaits` | litedram/core/bankmachine.py:242-251 | A constructed run from reset in which a refresh starts no sooner than the write before it has recovered. |
| `TurnaroundLimits.StartsNoSooner` | litedram/core/multiplexer.py:391-397 | Any bound on the wait for a refresh that holds on all runs is at least the write-to-precharge time less one, and the bound of `RefreshStarts` is one that holds. |
| `Deliveries.IssueExists` | litedram/core/bankmachine.py:116-126 | Every accepted request below the performed count was issued in some cycle. |
| `Deliveries.IssuesInOrder` | litedram/core/bankmachine.py:116-126 | Issue cycles are ordered like the accepted requests they belong to, and each request has only one. |
| `Deliveries.IssuedRequest` | litedram/core/bankmachine.py:116-126 | The command issued at an index is the accepted request of that index, direction included. |
| `Deliveries.LastStoreIsLastWriter` | litedram/phy/model.py:47-86 | The last cycle that writes a byte is the issue cycle of the last accepted request that stores it. |
| `Deliveries.ReadsAnswerAccepted` | litedram/core/crossbar.py:147-218 | Whenever a master's read strobe is up, the answer is to its oldest accepted command not served before, a read at a known index of its bank, and each byte on the bus is that of the greatest earlier accepted write index with that native address and byte enable, or the image's. |
| `Deliveries.WritesTakeAccepted` | litedram/core/crossbar.py:176-214 | Whenever a master's write strobe is up, it is for its oldest accepted command not served before, a write at a known index of its bank, and the word the master supplies is on the data bus and goes to that command's native address. |
| `Deliveries.AcceptedWritesAreStrobed` | litedram/core/crossbar.py:176-194 | Every accepted write that has been performed was issued in exactly one cycle, and write latency plus one cycles later the strobe of the bank's owner is up. |
| `RefreshProgress.StagesStep` | litedram/core/bankmachine.py:184-253 | While refresh is requested a bank never falls back, and an accepted command completes a stage. |
| `RefreshProgress.ChooserServes` | litedram/core/multiplexer.py:51-104 | With all countdowns over, a selected offer is accepted, or an offering bank is selected next. |
| `RefreshProgress.MeasureShrinks` | litedram/core/multiplexer.py:320-404 | Every waiting cycle starts the refresh or shrinks the measure of stages, countdowns and arbitration. |
| `RefreshProgress.RefreshStarts` | litedram/core/multiplexer.py:391-397 | Once the refresher waits, the multiplexer enters REFRESH within a bound computed from the settings, whatever the masters do. |
| `UpConverters.StoreIsWrite` | litedram/frontend/adapter.py:343-386 | Storing a beat into a silent lane of a wide word is a narrow byte-masked write. |
| `UpConverters.UpConverter.Tick` | litedram/frontend/adapter.py:159-386 | One clock cycle of command FSM, read lock and data paths is the step function; the outputs are those of both ports. |
| `UpConverterRefinement.StepInv` | litedram/frontend/adapter.py:159-386 | One cycle keeps the narrow memory equal to the wide one overlaid with the word being assembled, and all queues in order. |
| `UpConverterRefinement.Refines` | litedram/frontend/adapter.py:130-143 | For any commands, stalls, flushes and last marks: reads deliver what the narrow commands one by one return, and between groups the wide commands leave the memory the narrow ones do. |
| `UpConverterRefinement.PortsAreServed` | litedram/frontend/adapter.py:286-386 | A write strobe always finds the word of its own command, and a returning word always finds room. |
| `UpConverterRefinement.LaneListsMatchMask` | litedram/frontend/adapter.py:193-239 | The lane list is duplicate-free and as long as the lane mask's population count. |
| `Wishbones.AddressMeaning` | litedram/frontend/wishbone.py:109-124 | Wide address and lane are the parts of the relative address in the native port's width. |
| `Wishbones.StepInv` | litedram/frontend/wishbone.py:184-286 | One cycle keeps native memory plus merge buffer equal to the acknowledged writes, and the cache equal to native memory. |
| `Wishbones.ReadReturnsMemory` | litedram/frontend/wishbone.py:211-286 | An acknowledged read, cached or not, returns the word the acknowledged writes left. |
| `Wishbones.RunIsCoherent` | litedram/frontend/wishbone.py:109-286 | On every run: coherence, no pending write beside a valid cache line, and correct reads. |
| `Wishbones.AcknowledgedReadWasHeld` | litedram/frontend/wishbone.py:258-286 | The request that a native read's acknowledge answers was on the bus without interruption since the read was started: an aborted read is never acknowledged. |
| `Wishbones.WishboneBridge.Tick` | litedram/frontend/wishbone.py:184-286 | One clock cycle of the object is the step function; the outputs are the bus acknowledge and data, and the native port's command and write data. |
| `DmaReaders.ReadsAlwaysFit` | litedram/frontend/dma.py:72-105 | Outstanding reads plus stored words equal the reservations and never exceed the depth, under any toggling of `enable`; each word leaves with its own command's last mark. |
| `DmaReaders.DmaReader.Tick` | litedram/frontend/dma.py:72-105 | One clock cycle of the object is the step function; the word presented carries the last mark of its own command. |
| `DmaWriters.StrobeFindsWord` | litedram/frontend/dma.py:197-220 | Every strobe finds the word of its own command at the head of the queue. |
| `DmaWriters.DmaWriter.Tick` | litedram/frontend/dma.py:197-220 | One clock cycle of the object is the step function. |
| `DramFifos.IncWraps` | litedram/frontend/fifo.py:17-25 | The pointer increment wraps at the depth, also when it wraps by its own width. |
| `DramFifos.RingStep` | litedram/frontend/fifo.py:50-69 | Writing appends to the ring and reading removes its oldest word, both in one cycle too. |
| `DramFifos.RingIsConsistent` | litedram/frontend/fifo.py:29-69 | On every run and for any depth the write pointer is the read pointer plus the level modulo the depth, and the level is in range. |
| `DramFifos.OutputIsPrefix` | litedram/frontend/fifo.py:274-382 | When the count can hold every word, the output of every run is a prefix of the input. |
| `DramFifos.Overtakes` | litedram/frontend/fifo.py:311-382 | Otherwise, with bypass, there is a run whose output is not. |
| `DramFifos.OrderedIffCountable` | litedram/frontend/fifo.py:274-382 | All runs keep their order exactly when there is no bypass or depth plus reader depth is below two to the address width. |
| `DramFifos.FifoCtrl.Tick` | litedram/frontend/fifo.py:50-69 | Level and pointers move as specified, wrapping in their widths, for any writes and reads. |
| `DramFifos.DramFifo.Tick` | litedram/frontend/fifo.py:274-382 | One clock cycle of FIFO, ring controller and DMA engines is the step function; the outputs are both streams' handshakes and both ports' commands and data. |
| `BitSlips.DelaysExactly` | litedram/phy/utils.py:47-69 | The output bit stream is the input stream delayed by exactly the slip, plus a word when registered, for all widths, depths and slips. |
| `BitSlips.MinCyclesIsLeast` | litedram/phy/utils.py:71-74 | The minimum depth is the least that admits the slip. |
| `BitSlips.ConstBitSlip.Tick` | litedram/phy/utils.py:58-69 | One clock cycle of the shift register is the step function. |
| `Serdes.RoundTrip` | litedram/phy/utils.py:218-311 | When the ratio is a power of two, serializing and deserializing is the identity delayed by both latencies, registered or not. |
| `Serdes.TransparentIffPower` | litedram/phy/utils.py:245-311 | For every slice width, every stream of words comes through unchanged exactly when the ratio is a power of two. |
| `Serdes.OtherRatiosLose` | litedram/phy/utils.py:296-311 | With any other ratio and any slice width, four equal words do not come through. |
| `Serdes.ResetClears` | litedram/phy/utils.py:253 | `reset` clears the sending counter exactly when the counter with bit 0 set is `ratio - 1` or the counter wraps; the receiving one always. |
| `Serdes.ResetAligns` | litedram/phy/utils.py:253 | For a power of two, `reset` brings both counters to the same value exactly from the last two counts. |
| `Serdes.ResetMisses` | litedram/phy/utils.py:253 | With four slices of any width, `reset` takes the sending counter from zero to one. |
| `Serdes.TickBoth` | litedram/phy/utils.py:245-311 | Serializer and deserializer objects on one wire, with their resets, make the specified edge. |
| `Lpddr4Commands.FirstSmall` | litedram/phy/lpddr4/sim.py:269-296 | The first small command puts exactly its own handler into its second step, with the phase's fields. |
| `Lpddr4Commands.SecondSmall` | litedram/phy/lpddr4/sim.py:298-453 | The second small command yields exactly the phase's command, with bank, row, column and operand. |
| `Lpddr4Commands.ActiveIsOpened` | litedram/phy/lpddr4/sim.py:326-373 | A bank is active exactly when it was activated and neither activated nor precharged since, and its stored row is that activate's. |
| `Lpddr4Commands.CommandsSim.Tick` | litedram/phy/lpddr4/sim.py:114-142 | One clock edge of the decoder object is the step function; the storage of active banks, rows and mode registers takes in what was recognised, and the data simulator gets its bursts. |
| `Lpddr4Streams.NeverMixed` | litedram/phy/utils.py:177-215 | Or-ing the adapters never mixes two commands: each phase's lines are those of one command or quiet. |
| `Lpddr4Streams.StreamRoundTrip` | litedram/phy/lpddr4/sim.py:256-453 | From the or-ed lines of a stream of DFI phases the simulator recognises exactly the commands with none in the three phases before, in order, with all fields, and nothing unexpected. |
| `Lpddr4Pipelines.UnmaskedIsAllowed` | litedram/phy/utils.py:177-194 | The mask computed from the valid history is that rule. |
| `Lpddr4Pipelines.OutputIsLine` | litedram/phy/utils.py:177-215 | Bit by bit, the pipeline's or-ed bit slips are the phases' lines, eight phases later. |
| `Lpddr4Pipelines.EmittedRoundTrip` | litedram/phy/utils.py:177-215 | The same from the CS and CA bits that the masked, slipped and or-ed pipeline emits, twelve phases later. |
| `Lpddr4Pipelines.OpenRowsFollow` | litedram/phy/lpddr4/sim.py:326-373 | After any prefix of that stream the simulator's active banks and rows are those of the unmasked activates and precharges. |
| `ModelInit.DealRows` | litedram/phy/model.py:483-490 | The nested loops, with their early break, give each bank its slices of the image, one after the other. |
| `ModelInit.DealtFits` | litedram/phy/model.py:483-490 | No bank receives more words than it has cells. |
| `ModelInit.ImageAtNativeAddress` | litedram/phy/model.py:483-490 | Word i of the image ends up at the cell that native address i reaches. |
| `TimingConversion.NsToCyclesIsLeast` | litedram/modules.py:383-404 | `ns_to_cycles` with margin is the least number of cycles that keeps commands on any two phases far enough apart. |
| `TimingConversion.NsWithoutMarginIsLeast` | litedram/modules.py:383-386 | Without margin it is the least for commands on equal phases. |
| `TimingConversion.CkToCyclesIsLeast` | litedram/modules.py:388-389 | `ck_to_cycles` is the least number of cycles that holds that many DRAM clocks. |
| `TimingConversion.CkNsToCyclesIsLeast` | litedram/modules.py:391-392 | A setting given both ways meets both, and no smaller number of cycles does. |

## Left out

- ReadGapIsLeast: settings with `cwl` zero, a calibration due in every cycle, or `postponing` times tREFI shorter than the constructed run; `ColumnSpacing` gives the distance for these too.
- LegalTraceSpacing: tCCD and tWTR and the rules of REF and ZQCS are not rules of one bank; they are proved of the whole device, by `ColumnSpacing`, `RefreshOnlyPrecharged` and `RefreshRecovery`.
- CorrectIffLatencyFits: settings with `cwl` zero (`litedram/common.py:238` puts `cl` where none is given), no bytes or a single row, and first refreshes due before the end of the constructed run; `LatencyFits` is sufficient for these too.
- RefreshStarts: the bound counts the slowest countdown for every stage of every bank; it is not the smallest bound. `StartsNoSooner` shows that none is below write recovery less one cycle; which is smallest is not claimed.
- PerBankSpacing: tRAS before the refresher's Precharge All and read-to-precharge are not claimed; the code does not check them.
- Refines: ports in mode "both"; a read-only or write-only converter is the same machine without one data path. Progress is not claimed.
- StreamRoundTrip: mode register reads, for which the simulator has no handler, and the extended overlap check.
- CommandsSim.Tick: the initialisation state machine in front of the decoder, its timing pulses, and log messages other than unexpected commands.
- StartIsInitial: settings with postponing above one in which a refresh takes longer than tREFI, so that the sequencer's own run would meet the first request; `Start` then leaves that run out.
- Settings whose tCCD is None (every module sets it): the expression at `litedram/core/multiplexer.py:282-285` then gives zero for the whole write-to-read time.
- Multi-rank chip selects, buffered command FIFOs, bandwidth counters, CSR and DFI injection.
- ZQCS periodicity: that the calibration comes once in its period is not claimed.
- `LiteDRAMFIFO` with a width ratio above one, the down-converter, clock domain crossing, and the AXI and Avalon frontends.
- Memories without byte enables (`we_granularity` zero), whose write port ignores the mask.
- ECC, BIST, vendor PHYs, SPD parsing, electrical settings, and floating-point rounding (times are reals here).
- LPDDR5 and the data side of the LPDDR4 simulator.
- `BANK_ROW_COL` image layout: it is one slice for each bank and adds nothing to the default layout.
- Class form of `Controllers`, `Steering` and `Lpddr4Pipelines`: compositions of the modelled objects are given on values, so aliasing between them is not modelled.
