# VirtRTLab: a verified model

VirtRTLab simulates UARTs and GPIO banks: kernel modules offer them to an
application under test (AUT), a daemon relays each UART to a simulator over a
socket, and fault attributes delay, drop and corrupt what passes.  Its
difficulty is in four small concurrent state machines that hand data to each
other.  This project models these four and proves what they promise over every
interleaving.

* **GPIO delayed inject** (`GpioDevice`, `GpioProtocol`, `GpioTheorems`,
  `GpioInject`, `GpioEffects`).  An injector takes a snapshot under the lock, then applies it or
  arms a timer; applying takes the lock twice with a draw in between.  Injectors,
  timers, work items, RESET and the AUT interleave lock section by lock section.
* **UART transmit engine and wire device** (`UartDevice`, `UartLedger`,
  `UartProtocol`, `UartTheorems`, `UartClean`, `UartReset`, `UartReaders`,
  `UartClose`, `UartDrain`, `UartWhole`, `UartEffects`, `Streams`).  Bytes go from
  `tty_write` through `tx_fifo`, a paced work item with fault gates and `rx_fifo` to `wire_read`, with four ways to be
  flushed.  A ledger records as history what became of every byte.
* **Daemon relay** (`Relay`, `RelayDaemon`, `RelayShapes`, `RelayProtocol`,
  `RelayTheorems`, `RelayLeaks`, `RelayWitnesses`, `RelayLoop`, `RelayStartup`).
  One state machine per instance on one epoll set, with batches that may hold late
  events.
* **Daemon and UARTs together** (`RelayWire`, `RelayCalls`, `RelayScripts`,
  `RelayJoint`, `RelayEndToEnd`, `RelayResets`, `RelayForwards`).  The calls of
  the daemon are runs of the UART protocol of their instance; from the AUT to the
  simulators it is one system.
* **Bus core** (`BusCore`, `Prng`, `PrngNumbers`, `Orbit`, `FaultGate`, `KernelText`,
  `Counters`).  The state and notifier protocol that drives the peripherals, and
  the shared xorshift32 stream behind all fault gates.

`KernelStartup` covers loading and unloading of the three modules, `GpioUnload`
what still runs while a bank is unloaded.

## How the model is made

A critical section, or the code between two places where something else can run,
is one function on a value of the device; a system adds the places at which its
threads stand, and a run is any sequence of enabled steps.  The classes
(`GpioBank`, `UartDev`, `Core`, `EpollSet`, `UartInstance`) keep the same fields
as the C structures and change them in place; their methods are proved equal to
those functions, so the theorems are about the code in that form.  Fields that
the comments call history are never read by the modelled code.

Taken as given: a kfifo is a bounded sequence that takes the prefix that fits, and
once freed it gives and takes nothing; a timer is an armed flag, a work item has one
pending bit and never runs twice at a time, epoll reports each registered descriptor
at most once per batch, `send` and the flip buffer take some prefix, the TTY layer
lets no write run into the last close, and a file is released only when no read is
under way.  Results of system calls and random draws are parameters of the steps, so
every theorem holds for all of them.  Gates take a draw as its number; `Prng.Value`
is the number of a word of the stream.

What each step comes to is stated in the numbers of the driver, independent of how
its function is written, and lifted to runs (`GpioEffects`, `UartEffects`,
`RelayForwards`, `PrngNumbers`).

## Where the code differs from its description

* The comment at `kernel/virtrtlab_gpio.c:850-854` says that an apply which
  slipped past the cancel finds itself stale.  The second guard tests only
  `snap_gen`, so an apply between its two sections still commits
  (`GpioTheorems.CommitAfterReset`); `RecommitIffCaught` says exactly when.
* The comment at `kernel/virtrtlab_uart.c:959-961` allows for a missed rearm.
  `UartTheorems.NoStrandedByte` shows that none is missed.
* A RESET is meant to leave nothing queued.  Timer and work item are cancelled
  before the flush (`kernel/virtrtlab_uart.c:1219-1224`), and a writer can start
  the timer in between, so a burst can slip past the flush and be delivered after
  the callback (`UartReset.QueuedByteSurvivesReset`); `ArrivesIffHeld` says which
  bytes can.
* A RESET is meant to end the wire session: reads return end of file.  `wire_read`
  tests the flag (`kernel/virtrtlab_uart.c:1046`, `:1074`) before it takes the lock
  (`:1087-1095`), so a read that has passed the test still takes bytes that were in
  `rx_fifo` when RESET signalled (`UartReaders.ReadOvertakenByReset`), and the daemon
  then sends them (`RelayResets.ResetOvertakesRelay`);
  `UartReaders.OldIsReadIffPastFlag` and `RelayResets.OldIsSentIffPastFlag` say when.
* The last close of a port cancels the timer, then the work item, then counts and
  frees `tx_fifo` (`kernel/virtrtlab_uart.c:658-665`).  A work item past its look at
  `tx_fifo` starts the timer again after the first cancel, so the engine can outlive
  the close, and a burst it takes before the free is counted as dropped and still
  goes on, to a fifo that may be freed (`UartClose.EngineOutlivesClose`);
  `OutlivesIffRearms`, `DeliversNowhereIffArmed` and `CountedAndTaken` say when.
* Unloading a bank cancels its timers before it removes the sysfs files
  (`kernel/virtrtlab_gpio.c:1012-1025`), so an inject in between can arm one again
  (`GpioUnload.TimerLeftBehind`); `GpioUnload.CancelsHoldExactly` says when.
* `docs/sysfs.md:254` has the inject format as `N:V`; `GpioInject.AcceptedTexts`
  says what is accepted beyond it.
* After a wire reopen that fails in the drain (`daemon/instance.c:268-270`), and
  after one that fails at end of file (`daemon/instance.c:361-367`), the instance
  keeps the relaying state.  A late event then passes the state guard although its
  descriptor is gone (`RelayTheorems.LateEventsHarmless`); `AbortsExactly` says what
  that can lead to, and `RelayWitnesses` has the runs.
* If `O_NONBLOCK` cannot be set, the drain is skipped
  (`daemon/instance.c:247-254`), and old bytes can reach the next session
  (`RelayWitnesses.SkippedDrainLeaks`); `RelayLeaks.LeaksIffTainted` says when.
* Evicting the oldest byte on overflow, and an I/O error or poll error on the
  wire while the bus is down, are described but not in the code; the model
  follows the code: the newest bytes are lost, and reads go on.
* The generations of a GPIO line are u32 counters compared for equality, so after
  full turns of 2^32 a guard misreads (`GpioProtocol.MisreadsAreFullTurns`).  An
  inject is lost, or a stale value published, exactly when that happens
  (`GpioTheorems.LostIffMisread`, `NoStalePublish`); `WrapLosesInject` is such a run.

## Model

| member | source | states |
|---|---|---|
| `GpioTheorems.NoLostInject` | kernel/virtrtlab_gpio.c:261-475 | In every interleaving of any number of injectors, timers, work runs, AUT calls and RESETs, for each line by itself: the newest inject is never lost if and only if no step misreads a wrapped generation of that line while nothing else owes the commit; inside the window of the line none is lost |
| `GpioTheorems.LostIffMisread` | kernel/virtrtlab_gpio.c:270-300 | One step loses the newest inject of a line if and only if a guard of line_apply misreads on that line and no timer, work item, apply, injector or RESET still owes the commit |
| `GpioTheorems.NeverLostExactly` | kernel/virtrtlab_gpio.c:261-475 | The same equivalence over whole runs, from any state of the protocol in which the inject is not lost |
| `GpioProtocol.MisreadsAreFullTurns` | kernel/virtrtlab_gpio.c:270-300 | A guard misreads exactly when the u32 generation has made one or more full turns since the last commit, or since the apply copied its own |
| `GpioProtocol.NoMisreadInWindow` | kernel/virtrtlab_gpio.c:270-300 | With fewer than 2^32 snapshots on the line since then, no guard misreads on it, whatever happens on other lines |
| `GpioTheorems.QuiescentIsApplied` | kernel/virtrtlab_gpio.c:268-317 | A line with nothing in flight has applied its newest snapshot if and only if it is not lost; in a run without a losing misread it has, and its generations are equal |
| `GpioTheorems.NoStalePublish` | kernel/virtrtlab_gpio.c:291-317 | In every interleaving a commit publishes the newest accepted snapshot, flipped only under the rate captured with it, and an overtaken apply changes nothing, if and only if the second guard does not misread; inside the window of its line it never does |
| `GpioTheorems.CommitTakesNewest` | kernel/virtrtlab_gpio.c:291-317 | The same equivalence for one step of any state |
| `GpioTheorems.NewestInjectShows` | kernel/virtrtlab_gpio.c:399-475 | An inject accepted on an input line with bitflip rate 0 is exactly what the line shows once it is quiescent, whatever else ran, if no newer inject, AUT call naming the line, RESET or losing misread intervened |
| `GpioTheorems.StepOnlyAdvances` | kernel/virtrtlab_gpio.c:297-302 | The accepted history of a line only grows, and unless the second guard misreads the applied mark does not go back |
| `GpioProtocol.StepKeepsInv` | kernel/virtrtlab_gpio.c:261-475 | Every step keeps: an apply in flight holds exactly the snapshot its generation stands for, the u32 generations are the history counters modulo 2^32, attributes and counters stay in range |
| `GpioProtocol.StaleMeansApplied` | kernel/virtrtlab_gpio.c:270-275 | The first guard of line_apply stops exactly when the number of snapshots since the last commit is a multiple of 2^32 |
| `GpioProtocol.OvertakenMeansOlder` | kernel/virtrtlab_gpio.c:297-300 | The second guard stops exactly when the number of snapshots since the apply copied its own is not a multiple of 2^32 |
| `GpioTheorems.WrapLosesInject` | kernel/virtrtlab_gpio.c:449 | A run of 2^32 delayed injects with no commit between them after which the line is quiescent and its newest inject is lost |
| `GpioTheorems.RecommitIffCaught` | kernel/virtrtlab_gpio.c:850-856 | An applied snapshot can be committed once more before a newer inject if and only if an apply stands between its two lock sections with the current generation |
| `GpioTheorems.CommitAfterReset` | kernel/virtrtlab_gpio.c:850-856 | A run in which an apply caught by a whole RESET commits after it, changes the level and counts in the cleared counter: the comment at these lines is not what the code does |
| `GpioTheorems.ResetSettles` | kernel/virtrtlab_gpio.c:841-857 | After the locked section of RESET every line has equal generations |
| `GpioTheorems.ResetRunsToEnd` | kernel/virtrtlab_gpio.c:818-860 | RESET taken step by step, line by line, ends where the callback run in one piece ends |
| `GpioTheorems.AutAuthority` | kernel/virtrtlab_gpio.c:303-316 | While a line is an output and no AUT call names it, no run of injects, timers, work, RESETs and calls on other lines changes its direction or level |
| `GpioTheorems.LevelsAndDirections` | kernel/virtrtlab_gpio.c:127-230 | Only a commit on an input line or an AUT call that names the line changes its level, and only a direction call its direction |
| `GpioTheorems.LineIsolation` | kernel/virtrtlab_gpio.c:261-475 | A step on one line leaves every other line of the bank as it was |
| `GpioTheorems.CountersAreExact` | kernel/virtrtlab_gpio.c:310-316 | In every run value_changes, bitflips and drops are, modulo 2^64, the numbers of level-changing commits, flipped commits and dropped injects since the last clear |
| `GpioEffects.InjectEffect` | kernel/virtrtlab_gpio.c:427-449 | The inject step in numbers: a disabled bank stays as it is, a firing drop gate adds one to drops modulo 2^64, and only otherwise one line gets a snapshot, with the rate of that moment |
| `GpioEffects.InjectLeadsTo` | kernel/virtrtlab_gpio.c:427-475 | A taken inject goes on to the timer if and only if latency or jitter is not zero, and applies at once otherwise; a refused one is over |
| `GpioEffects.WriteArmsTimer` | kernel/virtrtlab_gpio.c:427-475 | The whole write arms the timer of its line if and only if the bank is enabled, the drop gate does not fire and a delay is set |
| `GpioEffects.RefusedInjectsLeaveNothing` | kernel/virtrtlab_gpio.c:427-440 | In every run in which the bank stays disabled or its drop rate at one million, no inject is taken on any line, whatever else goes on |
| `GpioEffects.CommitEffect` | kernel/virtrtlab_gpio.c:291-317 | The commit step in numbers: level of an input line only, inverted exactly if the captured rate fires, both counters modulo 2^64, other lines untouched |
| `GpioEffects.DelayReached` | kernel/virtrtlab_gpio.c:459-469 | Every delay from latency to latency plus jitter is sampled for some pair of draws |
| `GpioEffects.AutEffect` | kernel/virtrtlab_gpio.c:127-214 | What each call of the AUT does to each line, in levels and directions |
| `GpioEffects.SettingEffect` | kernel/virtrtlab_gpio.c:506-643 | Each attribute is taken up to ten seconds or one million, and changes only itself |
| `GpioEffects.ResetEffect` | kernel/virtrtlab_gpio.c:838-857 | The last step of RESET leaves the bank enabled, with latency, jitter, rates and counters zero and every line settled, whatever was set before |
| `GpioEffects.WholeResetEffect` | kernel/virtrtlab_gpio.c:818-860 | So does the whole callback, with nothing armed or pending; levels, directions and histories stay |
| `GpioEffects.WriteAfterReset` | kernel/virtrtlab_gpio.c:818-860 | After a whole RESET a write on an input line is seen at once, and on an output line changes no level, whatever the attributes were before |
| `GpioEffects.WriteAfterResetRun` | kernel/virtrtlab_gpio.c:818-860 | The same as a run: RESET step by step from any state in which no work item runs, and then the write |
| `GpioDevice.SetEachLine` | kernel/virtrtlab_gpio.c:199-214 | set_multiple leaves each line exactly as a single set on it would |
| `GpioDevice.SetThenGet` | kernel/virtrtlab_gpio.c:184-214 | get_multiple after set_multiple reads the driven bits on outputs and the old levels on inputs |
| `GpioDevice.Delay` | kernel/virtrtlab_gpio.c:459-469 | The sampled delay lies between latency and latency plus jitter |
| `GpioDevice.GpioBank.constructor` | kernel/virtrtlab_gpio.c:913-930 | A new bank is enabled without faults, with all lines low inputs, counters zero and no generation used |
| `GpioDevice.GpioBank.DirectionInput` | kernel/virtrtlab_gpio.c:127-135 | Makes one line an input and keeps its level |
| `GpioDevice.GpioBank.DirectionOutput` | kernel/virtrtlab_gpio.c:137-147 | Makes one line an output at the given level |
| `GpioDevice.GpioBank.Set` | kernel/virtrtlab_gpio.c:160-170 | Drives an output line; an input line is not touched |
| `GpioDevice.GpioBank.SetMultiple` | kernel/virtrtlab_gpio.c:199-214 | The loop in place equals setting the masked lines one after the other |
| `GpioDevice.GpioBank.GetMultiple` | kernel/virtrtlab_gpio.c:184-197 | The loop reports the levels of exactly the masked lines |
| `GpioDevice.GpioBank.InjectLocked` | kernel/virtrtlab_gpio.c:427-472 | The locked section of inject in place: a disabled bank is left as it was, a firing drop gate (draw modulo 1000000 below a nonzero rate) only counts, and anything else adds the snapshot with the rate of that moment and bumps the generation modulo 2^32; delayed exactly if latency or jitter is set, by latency plus the two draws modulo jitter + 1 |
| `GpioDevice.GpioBank.ApplyFirstLocked` | kernel/virtrtlab_gpio.c:268-280 | First section of line_apply: nothing to do, or a copy of snapshot and generation |
| `GpioDevice.GpioBank.ApplySecondLocked` | kernel/virtrtlab_gpio.c:291-317 | Second section in place: nothing if the generation has changed, else its commit, the level of an input line only, and the counters modulo 2^64 |
| `GpioDevice.GpioBank.LineApply` | kernel/virtrtlab_gpio.c:261-318 | line_apply from end to end: nothing on a settled line, else an input line shows the snapshot, inverted exactly if the rate captured with it fires |
| `GpioDevice.GpioBank.BusReset` | kernel/virtrtlab_gpio.c:818-860 | The RESET callback in place: timers and work cancelled, latency, jitter, both rates and the counters zero, the bank enabled, generations equal, levels and directions kept |
| `GpioInject.AcceptedTexts` | kernel/virtrtlab_gpio.c:357-397 | A write to inject is accepted if and only if it is a number kstrtoul takes, of at most three characters and below 8, one colon, one digit 0 or 1 and perhaps a newline; the request is what it says |
| `GpioInject.InjectStore` | kernel/virtrtlab_gpio.c:399-475 | The whole write: malformed text refused first, then a bus that is down, both without effect; otherwise ignored by a disabled bank, counted if the drop gate fires, and else taken, with an apply at once or an armed timer and the sampled delay |
| `GpioInject.FaultlessWrite` | kernel/virtrtlab_gpio.c:399-475 | With no faults and no delay a write on a settled input line is seen there at once, and on an output line changes no level; the line is settled again |
| `GpioInject.WriteIsRun` | kernel/virtrtlab_gpio.c:399-475 | The whole write is a run of the protocol in which only this write moves |
| `KernelText.NumeralIsParsed` | kernel/virtrtlab_gpio.c:386-390 | A number is read from a text, by kstrtoul or kstrtou32, if and only if the text spells it and it is below the limit of its type |
| `KernelText.ShownNumberIsRead` | kernel/virtrtlab_core.c:231-247 | A number written out in decimal is read back, with or without newline |
| `KernelText.NulEnds` | kernel/virtrtlab_core.c:198-217 | What follows a NUL byte does not count when a word is compared |
| `KernelText.SpelledIsParsed` | kernel/virtrtlab_gpio.c:386-390 | Every text with an optional sign, digits, optional newline and NUL-terminated rest is read as its number, or is a range error |
| `KernelText.ParsedIsSpelled` | kernel/virtrtlab_gpio.c:386-390 | Conversely every number read has such a spelling |
| `KernelText.ReadsDecimal` | kernel/virtrtlab_gpio.c:386-390 | Digits are read in base ten |
| `GpioInject.ShownIsRead` | kernel/virtrtlab_gpio.c:348-356 | The documented form N:V of every request is read back, with or without newline |
| `GpioInject.SignAccepted` | kernel/virtrtlab_gpio.c:386-390 | A sign before the index is accepted although the documented form has none |
| `GpioInject.NewlineAccepted` | kernel/virtrtlab_gpio.c:386-390 | So is a newline before the colon |
| `FaultGate.GateProbability` | kernel/virtrtlab_uart.c:924 | For every rate p exactly 4294 p + min(p, 967296) of the 2^32 draws let a gate fire; none at 0, all at 1000000 |
| `FaultGate.CountPeriods` | kernel/virtrtlab_uart.c:924 | The general count of draws below p modulo M among N |
| `Prng.RoundTrip` | kernel/virtrtlab_core.c:101-104 | The xorshift step is a bijection: an explicit inverse undoes it on both sides |
| `Prng.NonZeroStays` | kernel/virtrtlab_core.c:98-104 | A non-zero state never becomes zero |
| `Prng.OrbitReturns` | kernel/virtrtlab_core.c:92-108 | Every non-zero seed comes back after at most 2^32 - 1 draws |
| `Prng.StreamRepeats` | kernel/virtrtlab_core.c:92-108 | So the stream of draws from a seed is purely periodic |
| `Prng.ValueInjective` | kernel/virtrtlab_core.c:92-108 | The numeric value of a state determines the state |
| `Prng.WordsAreDraws` | kernel/virtrtlab_core.c:92-108 | The values of states are u32 numbers, as the gates take them |
| `Prng.ToWordRoundTrip` | kernel/virtrtlab_core.c:237-255 | Every u32 number is the value of a state |
| `PrngNumbers.DrawOnNumbers` | kernel/virtrtlab_core.c:92-108 | On numbers a draw is v xor (v 2^13 mod 2^32), then that xor itself / 2^17, then that xor itself 2^5 mod 2^32, from v or, for zero, from 1 |
| `PrngNumbers.DrawIsUnique` | kernel/virtrtlab_core.c:92-108 | And that determines it: no other number is a draw from v |
| `BusCore.SeedTextRoundTrip` | kernel/virtrtlab_core.c:231-255 | The text read from seed, written back, stores the state that was read |
| `BusCore.EventTraces` | kernel/virtrtlab_core.c:147-217 | For every sequence of writes to state: each RESET is followed at once by UP, between two DOWNs there is an UP, the last event decides the state, RESET callbacks see the state before and UP callbacks see UP |
| `BusCore.EveryShapeHappens` | kernel/virtrtlab_core.c:147-217 | Conversely every trace of that shape is produced by some sequence of writes |
| `BusCore.CommandEffect` | kernel/virtrtlab_core.c:147-196 | What each of the three commands leaves and emits: UP and DOWN one event on a change only, RESET always RESET in the old state and then UP |
| `BusCore.SeedNeverZero` | kernel/virtrtlab_core.c:231-255 | No sequence of draws and seed writes makes the state zero |
| `BusCore.Replay` | kernel/virtrtlab_core.c:231-255 | Writing back a seed that was read replays the draws that would have followed it, whatever happened in between |
| `BusCore.SeedsAccepted` | kernel/virtrtlab_core.c:237-255 | A text is taken as a seed if and only if it spells a number from 1 to 2^32 - 1, and then as that number |
| `BusCore.Core.SetState` | kernel/virtrtlab_core.c:147-168 | Sets the state and sends UP or DOWN only on a change, after it |
| `BusCore.Core.DoBusReset` | kernel/virtrtlab_core.c:170-196 | Sends RESET in the old state, then sets UP and sends UP |
| `BusCore.Core.StateStore` | kernel/virtrtlab_core.c:198-217 | Exactly up, down and reset, with an optional newline and up to a NUL, are taken: up and down set the state and send one event only on a change, reset sends RESET in the old state and then UP; anything else changes nothing |
| `BusCore.Core.SeedShow` | kernel/virtrtlab_core.c:231-235 | Shows the number of the state in decimal, and a newline |
| `BusCore.Core.SeedStore` | kernel/virtrtlab_core.c:237-255 | Stores the number that the text spells if it is from 1 to 2^32 - 1, and otherwise changes nothing |
| `BusCore.Core.NextPrng` | kernel/virtrtlab_core.c:92-108 | The three shifts in place: the new state is the draw from the old number, 1 standing in for zero |
| `UartTheorems.StreamOrder` | kernel/virtrtlab_uart.c:877-1109 | Over every run: the delivered stream is the accepted one cut into bursts of at most 64 in order, without dropped bursts, overrun ends and flushed stretches; each read got the next stretch; both fifos are exactly the rest of their streams |
| `UartTheorems.DeliveredByte` | kernel/virtrtlab_uart.c:936-951 | Each delivered byte is the accepted byte at its origin, except the one bit of the one byte a bitflip hit |
| `UartTheorems.OriginOrdered` | kernel/virtrtlab_uart.c:888-951 | Origins of delivered bytes are strictly increasing |
| `UartEffects.WriteEffect` | kernel/virtrtlab_uart.c:738-774 | What each part of a write does: past the bus only if it is up, past the device only if it is enabled, then as much as there is room for is queued, and the timer armed for ten bits at the rate if anything was |
| `UartEffects.DisabledAcceptsNothing` | kernel/virtrtlab_uart.c:747-750 | In every run in which the device stays disabled nothing is accepted, but from writers past its gate |
| `UartEffects.DownAcceptsNothing` | kernel/virtrtlab_uart.c:744-746 | In every run in which the bus stays down nothing is accepted, but from writers under way |
| `UartEffects.TakingEffect` | kernel/virtrtlab_uart.c:888-894 | The burst taken is the oldest min(64, queued) bytes, counted modulo 2^64 |
| `UartEffects.DecisionEffect` | kernel/virtrtlab_uart.c:904-944 | A burst becomes a gate drop if and only if the device is disabled or the drop rate is not 0 and the draw modulo 1000000 is below it; then its length is added to drops and rx_fifo stays; otherwise bit (draw modulo 8) of byte (flip / 1000000 modulo its length) changes exactly if the flip gate fires, and no other |
| `UartEffects.DeliveryEffect` | kernel/virtrtlab_uart.c:946-951 | A burst that passed goes into rx_fifo as far as there is room, and the rest is added to overruns |
| `UartEffects.BlockedDeliversNothing` | kernel/virtrtlab_uart.c:904-927 | In every run in which the device stays disabled or its drop rate at one million, nothing is delivered, but what the work item was already delivering at the start |
| `UartEffects.RearmEffect` | kernel/virtrtlab_uart.c:968-978 | The pause before the next burst is the time of this one plus latency plus the two draws modulo jitter + 1 |
| `UartEffects.PauseReached` | kernel/virtrtlab_uart.c:968-978 | Every pause in that range is sampled for some pair of draws |
| `UartEffects.CallEffect` | kernel/virtrtlab_uart.c:1031-1076 | A read asks for at most 4096 bytes; one that asks for none, or finds the reset flag, is over at once |
| `UartEffects.WaitEffect` | kernel/virtrtlab_uart.c:1056-1080 | A waiting read wakes exactly if there are bytes, the port is closed or the flag is set, and the flag ends it |
| `UartEffects.ReadEffect` | kernel/virtrtlab_uart.c:1087-1106 | The locked section of a read: end of file on a closed port, back to waiting on an empty fifo if it may, else the next bytes |
| `UartEffects.SessionEffect` | kernel/virtrtlab_uart.c:1002-1029 | One wire session at a time; opening clears the reset flag, releasing throws away what is unread |
| `UartEffects.SimulatorEffect` | kernel/virtrtlab_uart.c:1111-1154 | A write of the simulator counts what went through and what its last chunk lost, modulo 2^64, and touches neither fifo |
| `UartClean.LosslessRunIsPrefix` | kernel/virtrtlab_uart.c:738-1109 | At the end of any run, with closes, releases, DOWN and RESET in it or not: if so far nothing was lost to a gate, a flush or an overrun, nothing thrown away unread and no bit flipped, what all reads returned together is exactly a prefix of what was accepted |
| `UartClean.CleanRunIsPrefix` | kernel/virtrtlab_uart.c:738-1109 | So it is in every run without fault rates, DOWN, RESET, last close and wire release, as long as nothing overran |
| `UartTheorems.ConservationInRuns` | kernel/virtrtlab_uart.c:661-951 | In every run accepted = queued + counted + flushed, counted = in flight + gate drops + overruns + delivered, delivered = read + discarded + queued, where discarded is what releases and closes threw away; and modulo 2^64 since the last clear the four counters are sums of these, drops being gate drops, what DOWN flushed and what the last closes counted |
| `UartLedger.Conservation` | kernel/virtrtlab_uart.c:894-951 | The same balance from the invariant of one device state |
| `UartTheorems.NoStrandedByte` | kernel/virtrtlab_uart.c:761-987 | In every interleaving a queued byte has a timer, pending or running work, a writer about to arm, or a flush or the end of a last close to come; so the lockless empty check never misses a rearm |
| `UartTheorems.FifosAllocated` | kernel/virtrtlab_uart.c:639-676 | In every interleaving rx_fifo is allocated whenever a reader under the lock may touch it, and tx_fifo whenever a writer runs or a byte is queued |
| `UartClose.OutlivesIffRearms` | kernel/virtrtlab_uart.c:658-676 | When the last close has cancelled the timer: a timer can be armed, or work pending or running, once the port is closed, if and only if the work item will start the timer again, being past its look at tx_fifo, or having more queued than its burst |
| `UartClose.RestIsFinal` | kernel/virtrtlab_uart.c:658-676 | Once the work item is cancelled with no timer armed, nothing of the engine comes back in any run until the port is opened again |
| `UartClose.DeliversNowhereIffArmed` | kernel/virtrtlab_uart.c:659-675 | When the last close has cancelled the work item: the item can come to deliver a burst into the freed rx_fifo if and only if a timer was left armed and something is still queued |
| `UartClose.CountedAndTaken` | kernel/virtrtlab_uart.c:662-665 | Whatever runs between the count and the free of tx_fifo: what the close counts as dropped is what it then throws away plus what left tx_fifo in between |
| `UartClose.EngineOutlivesClose` | kernel/virtrtlab_uart.c:651-676 | From a new device, a run in which the work item starts the timer between the two cancels, the timer fires before tx_fifo is freed, and the item is about to deliver when both fifos are gone |
| `UartProtocol.StepKeepsInv` | kernel/virtrtlab_uart.c:627-1266 | Every step of AUT, engine, port, bus, wire and attributes keeps the ledger, the burst in flight, the allocation and the attendance invariant |
| `UartTheorems.FlushedStaysAway` | kernel/virtrtlab_uart.c:1221-1224 | A stretch flushed from tx_fifo by RESET, DOWN or shutdown is never delivered in any later run |
| `UartReset.QueuedStaysAway` | kernel/virtrtlab_uart.c:1219-1224 | What stands in tx_fifo when RESET flushes it is never delivered in any later run: with cancel and flush as one step, nothing queued at a RESET is ever read |
| `UartReset.ArrivesIffHeld` | kernel/virtrtlab_uart.c:1219-1224 | Step by step, a byte accepted before the flush can still be put into rx_fifo after it if and only if the work item holds its burst at the flush |
| `UartReset.QueuedByteSurvivesReset` | kernel/virtrtlab_uart.c:1219-1238 | From a new device, a run in which the only byte queued when RESET begins is in rx_fifo after the callback has ended |
| `UartTheorems.ResetIsolation` | kernel/virtrtlab_uart.c:1045-1095 | With a session open and RESET signalled, in every later run only a reader that stood between its last look at the flag and its lock when RESET signalled takes a byte that was in rx_fifo by then |
| `UartReaders.OldIsReadIffPastFlag` | kernel/virtrtlab_uart.c:1045-1095 | Exactly: from then on a reader can still take such a byte if and only if there is one and that reader was past its flag check |
| `UartReaders.ReadOvertakenByReset` | kernel/virtrtlab_uart.c:1045-1095 | From a new device, a run in which a read passes its flag check, the whole RESET callback runs, and then the byte that was in rx_fifo before is read |
| `UartTheorems.ResetEndsSession` | kernel/virtrtlab_uart.c:1031-1046 | Until that session is released every new read ends at once and the flag stays |
| `UartDevice.OneBitChanges` | kernel/virtrtlab_uart.c:936-944 | A fired bitflip changes exactly one bit of one byte of the burst, for every length and draw |
| `UartDevice.InsertShape` | kernel/virtrtlab_uart.c:1123-1142 | wire_write passes on a prefix and counts as overrun only the rest of the chunk that was cut short |
| `UartDevice.InsertEffect` | kernel/virtrtlab_uart.c:1123-1142 | Chunk by chunk of at most 256 bytes: one that is granted in full goes through and the rest goes on likewise, one that is not ends the call |
| `UartDevice.ByteTime` | kernel/virtrtlab_uart.c:731-735 | A byte is the time of ten bits: ByteNs r <= 10^10 < (ByteNs + 1) r for the rate r, 9600 for zero |
| `UartDevice.VerdictEffect` | kernel/virtrtlab_uart.c:904-944 | The gates of one burst in numbers, and which bit of which byte a flip hits |
| `UartDevice.WorkEffect` | kernel/virtrtlab_uart.c:877-979 | One whole work run in numbers: burst, gates, counters, room and pause |
| `UartDevice.ResetEffect` | kernel/virtrtlab_uart.c:1209-1239 | The whole RESET callback in numbers, whatever was set before |
| `UartDevice.DownEffect` | kernel/virtrtlab_uart.c:1240-1255 | The whole DOWN callback in numbers |
| `UartDevice.CloseEffect` | kernel/virtrtlab_uart.c:651-678 | The whole last close in numbers |
| `Counters.WrapTwice` | kernel/virtrtlab_uart.c:894 | Adding to a counter that has wrapped gives the wrapped sum |
| `UartDrain.DrainTime` | kernel/virtrtlab_uart.c:887-978 | n queued bytes drain in at most 8n + 2 steps of the engine, in K = ceil(n/64) bursts whatever the gates decide, the last scheduled between byte_ns (1 + 64 (K-1)) + (K-1) latency and that plus (K-1) jitter, whatever goes on meanwhile on the wire, with the counters or the fault rates, as long as nothing is written, cancelled or flushed and rate, latency and jitter stay |
| `UartEffects.DrainTimeInBits` | kernel/virtrtlab_uart.c:731-978 | The same in bits and baud: less (K-1) latencies, that time is at most (K-1) jitter above, and less than a nanosecond a byte below, that of 10 (1 + 64 (K-1)) bits at the rate |
| `UartDrain.DelayFits` | kernel/virtrtlab_uart.c:731-978 | For every baud rate, burst and accepted attribute no product or delay overflows u64 or ktime, and the jitter sample stays in range |
| `UartDevice.UartDev.TtyWrite` | kernel/virtrtlab_uart.c:738-774 | The write in place: nothing unless the bus is up and the device enabled; else as many bytes as there is room for, and if any were taken the timer armed for one byte, ten bits at the rate (9600 baud for zero) |
| `UartDevice.UartDev.FlipInPlace` | kernel/virtrtlab_uart.c:939-944 | The bitflip in the burst buffer itself; the rest of the buffer is untouched |
| `UartDevice.UartDev.TxWork` | kernel/virtrtlab_uart.c:877-979 | The work function in place: at most 64 bytes are taken and counted; dropped and counted exactly if the device is disabled or the drop gate fires, else put into rx_fifo as far as there is room, at most one bit changed, the rest counted; the timer armed for the next pause exactly if bytes remain |
| `UartWhole.WorkIsRun` | kernel/virtrtlab_uart.c:877-979 | That is a run of the protocol in which only the work item moves |
| `UartDevice.UartDev.TakeBurst` | kernel/virtrtlab_uart.c:888-894 | Takes the first min(64, queued) bytes and counts them |
| `UartDevice.UartDev.Deliver` | kernel/virtrtlab_uart.c:948-951 | Delivers the prefix that fits and counts the rest as overrun |
| `UartDevice.UartDev.RearmIfQueued` | kernel/virtrtlab_uart.c:968-978 | Arms the timer exactly if bytes remain, for the time of the burst at ten bits a byte plus latency plus the two draws modulo jitter + 1 |
| `UartDevice.UartDev.InsertChunks` | kernel/virtrtlab_uart.c:1123-1142 | The chunk loop of wire_write equals the recursive insertion, with both counters |
| `UartDevice.UartDev.WireWrite` | kernel/virtrtlab_uart.c:1111-1154 | Pushes the prefix that went through and counts it modulo 2^64; asks to try again exactly if nothing did |
| `UartDevice.UartDev.TimerCallback` | kernel/virtrtlab_uart.c:981-988 | The timer callback leaves the timer off and the work pending |
| `UartDevice.UartDev.PortActivate` | kernel/virtrtlab_uart.c:627-649 | First open: both fifos and the active flag, or nothing |
| `UartDevice.UartDev.PortShutdown` | kernel/virtrtlab_uart.c:651-678 | Last close in one piece: cancel, count what is queued as drops modulo 2^64, free both fifos |
| `UartWhole.CloseIsRun` | kernel/virtrtlab_uart.c:651-678 | That is a run of the protocol in which only the close moves |
| `UartDevice.UartDev.WireOpen` | kernel/virtrtlab_uart.c:1002-1015 | Opens only if closed, and then without a pending reset |
| `UartDevice.UartDev.WireReadLocked` | kernel/virtrtlab_uart.c:1050-1095 | End of file once the port is closed, else the next bytes of rx_fifo, no more than one page of them |
| `UartDevice.UartDev.WireRelease` | kernel/virtrtlab_uart.c:1017-1029 | Discards what is unread and closes the session |
| `UartDevice.UartDev.FlushTxFifo` | kernel/virtrtlab_uart.c:1248-1253 | Empties tx_fifo and counts the bytes as drops if asked to |
| `UartDevice.UartDev.BusDown` | kernel/virtrtlab_uart.c:1240-1255 | The DOWN callback in one piece: cancel, and what was queued is thrown away and counted; faults, rx_fifo and the wire stay |
| `UartDevice.UartDev.StatsReset` | kernel/virtrtlab_uart.c:574-591 | Clears the four counters and nothing else |
| `UartDevice.UartDev.BusReset` | kernel/virtrtlab_uart.c:1209-1239 | The RESET callback in one piece: engine off, tx_fifo empty, enabled, latency, jitter and both rates zero, counters zero, wire session at its end; rx_fifo, rate and port stay |
| `UartWhole.ResetIsRun` | kernel/virtrtlab_uart.c:1209-1239 | That is a run of the protocol in which only the callback moves |
| `UartWhole.DownIsRun` | kernel/virtrtlab_uart.c:1240-1255 | The DOWN callback in one piece is a run of the protocol in which only the callback moves |
| `UartWhole.OpenIsRun` | kernel/virtrtlab_uart.c:627-649 | And so is the first open, with any sizes from 64 to 65536 |
| `RelayTheorems.EpollMatchesState` | daemon/instance.c:60-322 | For any number of instances and any run in which wire reopens succeed: never an abort; waiting exactly when the server is all that is registered and there is no client, relaying exactly when wire and client are registered and the server is not |
| `RelayTheorems.AbortsExactly` | daemon/epoll_loop.c:47-60 | Without that assumption: a step aborts the process if and only if it accepts a client for an instance without wire or hands a client event to an instance that is offline |
| `RelayShapes.DispatchShape` | daemon/instance.c:239-430 | Whatever the calls of a handler answer, other instances are untouched and this one ends in one of five shapes, with exactly the descriptors and registrations of that shape |
| `RelayProtocol.StepKeepsInv` | daemon/epoll_loop.c:175-193 | Every epoll_wait, handler and device move keeps the tables and the batch in order |
| `RelayTheorems.LateEventsHarmless` | daemon/instance.c:298-337 | Whatever earlier events of the batch did, a handler acts on the session in which its event was collected; if it passes its state guard, the descriptor of the event is still registered for that purpose if and only if it is the server or the instance still has its wire |
| `RelayTheorems.LateEventsRegistered` | daemon/instance.c:298-337 | So as long as wire reopens succeed it always is |
| `RelayTheorems.SessionIsolation` | daemon/instance.c:239-284 | If drains complete, no byte that had arrived when the handler ending a session was entered is sent to a later session, whether it ended by disconnect, short send or wire EOF |
| `RelayLeaks.LeaksIffTainted` | daemon/instance.c:239-284 | An instance between two batches, waiting, linked or without its wire, can still leak a byte of an ended session, even if all drains from then on complete, if and only if its wire is open and not at its end and something that had arrived when a session ended is still in the fifo |
| `RelayLeaks.LeaksExactly` | daemon/instance.c:239-284 | That condition is exact at the end of every run from start-up, whatever failed in it |
| `RelayTheorems.RelayInOrder` | daemon/instance.c:330-392 | Over any run, whatever fails: the stretches of the wire stream sent to simulators, over all sessions, follow each other in order and never overlap |
| `RelayTheorems.ResetStopsRelay` | daemon/instance.c:356-371 | Once the bus was reset under an open wire between two handlers, nothing that had arrived by then is ever relayed, whatever fails |
| `RelayTheorems.ResetDropsClient` | daemon/instance.c:356-371 | The next answered wire event after a RESET relays nothing, drops the client and reopens the wire |
| `RelayTheorems.DrainEmpties` | daemon/instance.c:256-277 | Whatever a drain is told, the device only moves on; a complete one leaves nothing of what had arrived when it began |
| `RelayForwards.WireEffect` | daemon/instance.c:330-392 | The wire handler of a linked instance: of a read whose send takes everything, exactly that stretch is added to the current session and to what is gone from the device; of a short send what was taken, and the session ends |
| `RelayForwards.ClientEffect` | daemon/instance.c:398-430 | The client handler of a linked instance: nothing changes while the client sends, and its end ends the session without sending |
| `RelayForwards.ServerEffect` | daemon/instance.c:294-322 | The accept handler: a waiting instance starts the next session with the client, any other instance stays as it is |
| `RelayWitnesses.LateEventAborts` | daemon/instance.c:361-367 | A run from start-up in which a failed reopen at EOF and a late client event of the same batch abort the process |
| `RelayWitnesses.LostWireAborts` | daemon/instance.c:268-270 | A run in which a failed reopen in the drain, a late client event and the next client abort the process |
| `RelayWitnesses.SkippedDrainLeaks` | daemon/instance.c:247-254 | A run in which the drain is skipped and a byte of the first session is sent to the second |
| `RelayWire.RunIsMove` | kernel/virtrtlab_uart.c:1008-1109 | Every run of the UART protocol without an open of the wire is a move of the device the relay assumes |
| `RelayWire.ReadCall` | kernel/virtrtlab_uart.c:1031-1109 | A read call of the daemon, interleaved with anything else on the UART, takes what the relay expects and logs that stretch of the delivered stream |
| `RelayWire.EmptyCall` | kernel/virtrtlab_uart.c:1087-1106 | A non-blocking read that finds nothing means the fifo was empty at that moment |
| `RelayCalls.BytesAsExpected` | kernel/virtrtlab_uart.c:1031-1109 | Any read call of the daemon that finds bytes, interleaved with anything else on the UART, is one the relay expects |
| `RelayCalls.NothingAsExpected` | kernel/virtrtlab_uart.c:1087-1106 | A non-blocking one that finds none leaves an empty fifo and no reader |
| `RelayCalls.EndAsExpected` | kernel/virtrtlab_uart.c:1045-1094 | One that returns end of file takes nothing and leaves no reader |
| `RelayCalls.SignalInsideCall` | kernel/virtrtlab_uart.c:1045-1095 | If the reset flag is set while a read call is under way and the call still finds bytes, it had passed its flag check by then |
| `RelayCalls.ResetOvertakesCall` | kernel/virtrtlab_uart.c:1045-1095 | On any readable device a call of the daemon with a whole RESET inside takes what was in rx_fifo before |
| `RelayCalls.ReadableIsRead` | kernel/virtrtlab_uart.c:1078-1095 | A device that has something to read can be read: a call entered and woken finds the bytes |
| `RelayScripts.DrainAsExpected` | daemon/instance.c:256-283 | Every drain against a real device is one the relay allows, and leaves the fifo the relay believes in |
| `RelayJoint.AnswersAllowed` | daemon/instance.c:294-430 | Coupled to its UART, an instance is never told anything the relay protocol does not allow |
| `RelayJoint.JointStepKeeps` | daemon/instance.c:239-430 | Every step of the joint system keeps, for every instance with an open wire, that its fifo is the one of its UART |
| `RelayJoint.RunIsRelay` | daemon/epoll_loop.c:175-193 | Every run of daemon and UARTs together is a run of the relay protocol |
| `RelayEndToEnd.StartCouples` | daemon/instance.c:116-119 | Opening the wire at start-up finds a device to which the new instance is coupled |
| `RelayEndToEnd.StartsJoint` | daemon/main.c:235-258 | A daemon whose instances all started over their own UARTs is in a state from which the theorems about the joint system hold |
| `RelayEndToEnd.StartJoint` | daemon/main.c:235-258 | Starting the daemon over UARTs nobody has open leads there whenever it succeeds |
| `RelayEndToEnd.SimulatorsGetSubsequence` | daemon/instance.c:330-392 | Over any joint run, whatever fails: what the simulators of all sessions of an instance got, put together, is a subsequence of what the AUT wrote to its UART, each byte as written but for the one bit a bitflip changed |
| `RelayEndToEnd.GotGrows` | daemon/instance.c:380-391 | What the simulators have got never changes; a run only adds to it |
| `RelayForwards.SessionSendsReads` | daemon/instance.c:330-392 | Over any stretch of a session, from whatever joint state a run from start-up reaches: what the instance sends are exactly the reads of its UART, one by one, each from the first byte read to the last |
| `RelayForwards.SimulatorGetsStream` | daemon/instance.c:330-392 | And if nothing is thrown away unread meanwhile, what the simulator gets is exactly what leaves rx_fifo, byte for byte and without a gap |
| `RelayEndToEnd.LaterSessionsGetLaterBytes` | daemon/instance.c:239-284 | In the joint system, if drains complete: nothing that was in rx_fifo of the UART when the handler ending a session was entered is sent to a later session |
| `RelayEndToEnd.ResetReachesSimulators` | daemon/instance.c:356-371 | In the joint system: once the bus was reset under the open wire between two handlers of the instance, nothing that was in rx_fifo then is ever sent to a simulator |
| `RelayResets.OldIsSentIffPastFlag` | daemon/instance.c:330-392 | A RESET that signals inside the read call of a wire handler: however that handler and the joint system go on, a byte that was in rx_fifo by then can still be sent to a simulator if and only if there is one and the call is between its last look at the flag and its lock section |
| `RelayResets.ResetOvertakesRelay` | daemon/instance.c:330-392 | So it happens: in every joint state in which a linked instance is about to read from a device that has something, a whole RESET fits into the call, and the handler then sends what was in rx_fifo before |
| `RelayEndToEnd.RelayedInWrittenOrder` | daemon/instance.c:330-392 | In the joint system: of two relayed bytes the one sent first was written first, across sessions, bursts, drops and flushes |
| `RelayWire.CloseAndOpen` | kernel/virtrtlab_uart.c:1002-1029 | Closing empties rx_fifo, opening clears the reset flag |
| `RelayDaemon.EpollSet.Add` | daemon/epoll_loop.c:47-60 | Registers an open unregistered descriptor, aborts otherwise |
| `RelayDaemon.EpollSet.Del` | daemon/epoll_loop.c:62-74 | Deregisters, and tolerates what is not registered |
| `RelayDaemon.UartInstance.ClientClose` | daemon/instance.c:69-77 | Deregisters and closes the client, if there is one |
| `RelayDaemon.UartInstance.EnterWait` | daemon/instance.c:83-87 | Registers the server and waits |
| `RelayDaemon.UartInstance.Reopen` | daemon/instance.c:60-67 | Closes the wire and takes what opening it again gives |
| `RelayDaemon.UartInstance.DiscardAll` | daemon/instance.c:256-259 | The read loop of the drain discards exactly what its reads return |
| `RelayDaemon.UartInstance.CloseAndDrain` | daemon/instance.c:239-284 | The disconnect path in place, with every exit of the drain |
| `RelayDaemon.UartInstance.OnServerReadable` | daemon/instance.c:294-322 | The accept handler in place: a waiting instance takes the client and starts the next session, and the rest stays |
| `RelayDaemon.UartInstance.OnWireReadable` | daemon/instance.c:330-392 | The wire handler in place: if all of a read (at most 4096 bytes) is taken, exactly that stretch is sent in the current session and nothing else changes; of a short send what was taken, and the session ends, as at EOF; EIO changes nothing |
| `RelayDaemon.UartInstance.OnClientReadable` | daemon/instance.c:398-430 | The client handler in place |
| `RelayDaemon.UartInstance.Destroy` | daemon/instance.c:194-219 | Closes whatever the instance still has |
| `RelayLoop.DispatchBatch` | daemon/epoll_loop.c:181-192 | The dispatch loop over one batch does exactly the protocol steps, one event after the other |
| `RelayStartup.InstanceInit` | daemon/instance.c:91-192 | One instance starts completely, or all its descriptors are given back and only a stale socket is gone |
| `RelayStartup.StartAll` | daemon/main.c:235-258 | All instances start, in a state that meets the assumptions of all theorems about runs, or nothing is open, registered or bound any more |
| `RelayStartup.StopAll` | daemon/epoll_loop.c:92-112 | On a signal, in whatever state the instances are, everything is closed, deregistered and unlinked |
| `KernelStartup.GpioInit` | kernel/virtrtlab_gpio.c:896-1006 | Loading either yields every device, chip and notifier or holds exactly what was held before |
| `KernelStartup.GpioExit` | kernel/virtrtlab_gpio.c:1008-1029 | Unloading gives back exactly the devices, chips, notifiers and the table |
| `GpioUnload.OffUntilArmed` | kernel/virtrtlab_gpio.c:1012-1025 | While a bank is unloaded with everything else going on beside it, a step undoes the cancel of a timer or work item if and only if it is an inject that arms the timer of the line after the cancel |
| `GpioUnload.CancelsHoldExactly` | kernel/virtrtlab_gpio.c:1012-1025 | Over every such run: what unloading cancelled on a line stays cancelled throughout if and only if no inject armed the timer late |
| `GpioUnload.IdleWhenFreed` | kernel/virtrtlab_gpio.c:1012-1025 | Then the line has no timer armed, no work pending and none running when the memory is freed |
| `GpioUnload.NoDelayNothingLeft` | kernel/virtrtlab_gpio.c:459-472 | With latency and jitter 0, no writer about to arm a timer and neither attribute changed, that holds for every line |
| `GpioUnload.TimerLeftBehind` | kernel/virtrtlab_gpio.c:1012-1025 | A run in which a delayed inject between the cancels and the removal of the sysfs files leaves a timer armed when the memory is freed |
| `KernelStartup.UartInit` | kernel/virtrtlab_uart.c:1287-1415 | The same for the UART module, with its TTY driver and wire devices |
| `KernelStartup.UartExit` | kernel/virtrtlab_uart.c:1417-1434 | Unloading gives back exactly the devices, wire devices, notifiers and the driver |
| `UartClose.ExitLeavesTimerIffRearm` | kernel/virtrtlab_uart.c:1422-1430 | When unloading has cancelled the timer of a closed UART: a timer can be armed once the work item is cancelled too if and only if the item was past its look at tx_fifo |
| `KernelStartup.GpioCycle` | kernel/virtrtlab_gpio.c:896-1029 | Loading and then unloading the GPIO module leaves what is held as it was, whichever step fails |
| `KernelStartup.UartCycle` | kernel/virtrtlab_uart.c:1287-1434 | The same for the UART module |
| `KernelStartup.CoreCycle` | kernel/virtrtlab_core.c:275-364 | The same for the core |
| `KernelStartup.CoreInit` | kernel/virtrtlab_core.c:275-351 | The goto chain undoes exactly the steps that succeeded |
| `KernelStartup.CoreExit` | kernel/virtrtlab_core.c:353-364 | Unloading the core gives back everything |

## Left out

- Memory allocation failures inside reads, faults when copying to or from user space, and weak memory order: each section is atomic, and a failing read of the daemon is any error.
- The internals of kfifo, hrtimer, workqueues, the TTY layer, gpiolib and kobjects: they are the given facts listed above.
- Counters: an atomic add to a UART counter is one step with the lock section next to it, and clearing the four counters is one step.
- Random draws as shared state of the protocols: steps take their draws as parameters, so which thread gets which draw of the stream is not tracked.
- The order of the two draws that form a jitter sample (`kernel/virtrtlab_uart.c:971-972`, `kernel/virtrtlab_gpio.c:465-466`): C leaves it open, the model takes the high word first.
- The state of the bus at a GPIO inject: it is checked before the lock, so the inject step stands for every write that got past the check.
- `tx_buf_sz` and `rx_buf_sz`: a port may be activated with any sizes from 64 to 65536; the busy check of the attributes is not modelled.
- Bytes from the simulator to the AUT beyond their counters: `wire_write` is modelled as the prefix it passes on.
- The signal descriptor in the epoll set and the bound of 32 events per batch: batches of any length are allowed.
- The blocking behaviour of the daemon's handlers: a handler is one step, with device moves allowed between its calls.
- A failure to restore the file flags after a drain: it only changes whether a later read blocks.
- The remaining attributes, the command line tool, argument parsing, the run directory, logging, permissions and packaging: they would add only members that follow from one branch.
- Rate bounds for runs with further writes: a write during pacing starts the timer anew (`kernel/virtrtlab_uart.c:769-771`), so only a drain left alone has one.
- UartTheorems.FifosAllocated: does not promise rx_fifo to the section that delivers a burst, because the code does not; `UartClose.DeliversNowhereIffArmed` has the exact condition.
- UartDevice.UartDev.BusReset: does not model the hangup of the AUT side at the end of the callback; it leads to a close, which the protocol has as a step of its own.
- RelayDaemon.UartInstance.OnClientReadable: does not model the write of the received bytes to the wire; in the joint system that write is a step of the UART (`RelayJoint.WriteBytes`).
- RelayTheorems.SessionIsolation: holds if every drain completes; `RelayLeaks.LeaksIffTainted` has the exact condition when some did not.
- RelayTheorems.EpollMatchesState: assumes that wire reopens succeed; `RelayTheorems.AbortsExactly` covers the runs in which they do not.
- RelayResets.OldIsSentIffPastFlag: is about the read call of a wire handler; a RESET that signals inside a drain has no statement of its own, since a drain sends nothing of what it takes.
- KernelStartup.GpioExit: does not count timers and work items among the resources; `GpioUnload.CancelsHoldExactly` says when they stay cancelled.
- KernelStartup.UartExit: does not count the timer and the work item among the resources; `UartClose.ExitLeavesTimerIffRearm` says when cancelling them there leaves a timer armed.
- The joint system: between the close and the open of a wire reopen the UART does not move, and a UART whose instance has lost its wire is not opened by anyone else.
