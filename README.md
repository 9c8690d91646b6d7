# SMD tty driver: per-channel state machine

A Dafny model of the MSM shared-memory-driver (SMD) tty layer in
`arch/arm/mach-msm/smd_tty.c`. The driver puts a Linux tty on top of an SMD
channel to a remote processor (modem, WCNSS). Each slot of the device table
(`struct smd_tty_info`) is updated in place by:

- the transport's event callback: DATA, OPEN, CLOSE and REOPEN_READY;
- the tty operations: write, tiocmget, tiocmset and unthrottle;
- the deferred read tasklet;
- the buffer-request retry timer;
- port activation and port shutdown.

The model has five modules:

- `SmdConfig` (`smd_config.dfy`) holds the driver's constants, the
  compiled-in channel table and the platform-probe matching.
- `ResetState` (`reset_state.dfy`) holds the three reset flags (`is_open`,
  `in_reset`, `in_reset_updated`). It gives their updates as a function of
  events, shutdown and status queries, and traces of such updates with
  reference definitions. It also defines the status word `tiocmget` reports.
- `ReadPump` (`read_pump.dfy`) gives what one run of the read tasklet does, as
  the function `Pump`, with its properties.
- `PortLifecycle` (`port_lifecycle.dfy`) describes the course of an activation
  for every combination of foreign outcomes. That is the return code and the
  ordered acquire/release operations on the subsystem reference, the read
  resources and the transport handle. It also covers what shutdown releases,
  and the resource accounting over any number of sessions.
- `SmdTty` (`smd_tty.dfy`) holds the imperative model:
  - class `Channel`, one slot with its fields, updated in place by one method
    per handler;
  - class `Tty`, the tty the driver pushes to;
  - class `Registry`, the device table and the global mutex, with activation,
    shutdown and the probe.

  The tasklet loop, the event callback, tiocmget, the open sequence and
  shutdown are proved against the functions of the value modules; write is
  proved against `WriteReturn`, and tiocmset, the retry timer and unthrottle
  state their effect on the slot directly. For example, the read loop `Channel.Drain` is proved to do exactly what `Pump`
  describes. The goto-unwind open sequence (`Channel.OpenPort`,
  `OpenReadSide` and `OpenTransport`, one method per unwind label) is proved
  to return `PortLifecycle.Activate`'s code and to append exactly its
  operations to the slot's ghost ledger.

Each handler runs as one atomic method: the spinlocks and the global mutex
only serialise handlers. Calls into code not shown here become parameters
(`Outcomes` for activation, `ldisc` for the line discipline's answers in the
read loop, `transportResult` for `smd_tiocmset`) or state of the slot:

- `rx` holds the bytes the remote side has made available;
- `txSpace` is the room for writing;
- `tx` holds the bytes written;
- `lineSignals` is the signal word `smd_tiocmget` reports.

## Model

| member | source | states |
|---|---|---|
| SmdConfig.ConfigsFitTable | arch/arm/mach-msm/smd_tty.c:111-125 | every table entry names a slot below MAX_SMD_TTYS (37); the indices strictly increase, so no slot is named twice |
| SmdConfig.ProbeIndex | arch/arm/mach-msm/smd_tty.c:706-727 | the probe answers None exactly when no entry has a device name, the device's id as edge and an equal name (up to SMD_MAX_CH_NAME_LEN characters); otherwise it answers the index of the first matching entry |
| SmdConfig.FindProbeMatch | arch/arm/mach-msm/smd_tty.c:710-723 | the probe's scan of the table finds a match iff ProbeIndex is Some, and then returns that entry's device index |
| SmdConfig.Truncate | arch/arm/mach-msm/smd_tty.c:717-719 | the bounded name compared by strncmp is a prefix of the name: the whole name when it is no longer than the bound, otherwise exactly the bound long |
| SmdConfig.Registered | arch/arm/mach-msm/smd_tty.c:805-809 | after initialisation every entry has a device name (its own or its port name), and nothing else in the entry changes |
| SmdConfig.RegisteredEntryIsFound | arch/arm/mach-msm/smd_tty.c:706-727 | once registered, a probe with an entry's edge and registered name always completes some slot |
| ResetState.RunKeepsResetImpliesClosed | arch/arm/mach-msm/smd_tty.c:297-341 | "in_reset implies not is_open" holds before and after every event, shutdown and status query, so it holds along any trace from the initial flags |
| ResetState.RunIsOpen | arch/arm/mach-msm/smd_tty.c:526-528 | after a trace, is_open is set iff an OPEN came and no CLOSE, REOPEN_READY or shutdown followed it, or the flag was set and nothing closed the channel |
| ResetState.RunInReset | arch/arm/mach-msm/smd_tty.c:297-341 | after a trace, in_reset is set iff the last event that changed it was CLOSE or REOPEN_READY, or no OPEN came and it was set |
| ResetState.RunChangePending | arch/arm/mach-msm/smd_tty.c:654-659 | after a trace, in_reset_updated is set iff an OPEN, CLOSE or REOPEN_READY came with no status query after it, or it was set and no query happened |
| ResetState.StatusBits | arch/arm/mach-msm/smd_tty.c:646-665 | the status word has OUT1 iff in reset (or the transport set it), OUT2 iff the reset status changed (or the transport set it), and every other bit as the transport reported it |
| ResetState.QueryConsumesChange | arch/arm/mach-msm/smd_tty.c:656-659 | after a status query, a later query reports no OUT2 unless OPEN, CLOSE or REOPEN_READY came in between |
| ReadPump.Pump | arch/arm/mach-msm/smd_tty.c:215-256 | one run of the read tasklet; the run never consumes more bytes than the channel holds |
| ReadPump.PumpDeliversPrefix | arch/arm/mach-msm/smd_tty.c:215-256 | a run delivers exactly the first `consumed` bytes of the channel, in order, with no loss or duplication; in reset it delivers one BREAK and consumes nothing |
| ReadPump.PumpChunksBounded | arch/arm/mach-msm/smd_tty.c:233-236 | every chunk holds between 1 and MAX_TTY_BUF_SIZE (2048) bytes, and the chunks add up to the bytes consumed |
| ReadPump.PumpExitReasons | arch/arm/mach-msm/smd_tty.c:215-242 | a run ends drained only when every byte moved; it ends waiting for a buffer only with bytes left; it sends BREAK iff in reset; unthrottled and not in reset, it ends drained or waiting for a buffer |
| ReadPump.ChunkListCovers | arch/arm/mach-msm/smd_tty.c:233-236 | the reference chunking covers exactly the length, with full chunks except possibly the last |
| ReadPump.PumpUniformGrants | arch/arm/mach-msm/smd_tty.c:223-256 | with a line discipline granting g ≤ 2048 bytes per request and enough requests, a run drains the channel in the reference chunks |
| ReadPump.UniformGrantsOfMultiple | arch/arm/mach-msm/smd_tty.c:223-256 | when the length is a multiple of the grant, every chunk is full and all bytes arrive in order |
| ReadPump.FiveThousandInChunksOfFiveHundred | arch/arm/mach-msm/smd_tty.c:223-256 | 5000 bytes granted 500 at a time move in ten chunks of 500, all in order |
| PortLifecycle.TransportStage | arch/arm/mach-msm/smd_tty.c:467-493 | opening the channel and waiting for the remote OPEN never yields a positive code |
| PortLifecycle.ReadStage | arch/arm/mach-msm/smd_tty.c:408-498 | the allocation wait, the read resources and the transport stage never yield a positive code |
| PortLifecycle.Activate | arch/arm/mach-msm/smd_tty.c:355-506 | an activation never yields a positive code; an index without a configured channel yields -ENODEV and touches no resource |
| PortLifecycle.ActivateCourses | arch/arm/mach-msm/smd_tty.c:372-505 | the resource operations of each course of activation, written out: get failure none, allocation-wait failure get/put, open failure with the read resources, ack-wait failure with the handle closed, success keeping all three |
| PortLifecycle.TransportNests | arch/arm/mach-msm/smd_tty.c:467-493 | the transport stage leaves the transport handle on top of the held resources when it succeeds, and on failure closes a handle it opened, leaving the held resources as it found them |
| PortLifecycle.ReadNests | arch/arm/mach-msm/smd_tty.c:459-498 | the read stage leaves the read resources and the handle on top when it succeeds, and on failure releases in reverse order whatever it acquired |
| PortLifecycle.ActivateNests | arch/arm/mach-msm/smd_tty.c:459-505 | every activation releases in reverse order of acquiring; a failed one ends holding nothing, a successful one holds the subsystem reference, the read resources and the transport handle |
| PortLifecycle.AllocatedWaitPasses | arch/arm/mach-msm/smd_tty.c:408-425 | once the channel-allocated completion has fired (complete_all at line 720), the allocation wait no longer affects an activation: any outcome of it gives the same code and resource operations |
| PortLifecycle.ActivateErrors | arch/arm/mach-msm/smd_tty.c:372-489 | the code of each failure: the error of subsystem_get, -ETIMEDOUT for a timed-out allocation wait, -ERESTARTSYS for an interrupted one, the error of the open, the wait's error for the ack wait; 0 iff every step succeeded |
| PortLifecycle.ShutdownReleasesAll | arch/arm/mach-msm/smd_tty.c:530-566 | shutdown's releases take the three resources of a successful activation back out of any held multiset |
| PortLifecycle.SessionBalanced | arch/arm/mach-msm/smd_tty.c:355-570 | one activation, followed by shutdown when it succeeded, leaves the held resources as they were, whatever the outcomes |
| PortLifecycle.SessionsLeakNothing | arch/arm/mach-msm/smd_tty.c:355-570 | any number of such sessions leak no subsystem reference, read resource or transport handle |
| SmdTty.WriteReturn | arch/arm/mach-msm/smd_tty.c:595-611 | write returns -ENETRESET iff in reset; otherwise a count of at most the length and at most the room, equal to one of them (100 asked with room 40 gives 40) |
| SmdTty.Channel.constructor | arch/arm/mach-msm/smd_tty.c:862 | a slot starts not open, not in reset, nothing pending, nothing held, no channel |
| SmdTty.Channel.Notify | arch/arm/mach-msm/smd_tty.c:263-344 | flags as AfterEvent (OPEN: open, out of reset, changed; CLOSE and REOPEN_READY: closed, in reset, changed; DATA: unchanged); DATA on a closed channel changes nothing; when open it turns the read interrupt off and wakes writers iff there is room, and takes the read wake lock and schedules the tasklet iff bytes are waiting; CLOSE schedules the tasklet; the loopback re-request is made iff CLOSE arrives on the slot whose index is the loopback index; the invariant is kept |
| SmdTty.Channel.Write | arch/arm/mach-msm/smd_tty.c:586-612 | returns WriteReturn; in reset or with no room the channel's data is untouched; with no room (not in reset) the read interrupt is enabled; otherwise exactly the first min(len, room) bytes are forwarded |
| SmdTty.Channel.TiocmGet | arch/arm/mach-msm/smd_tty.c:646-665 | returns StatusBits of the flags on entry: OUT1 iff in reset, OUT2 iff in_reset_updated was set; in_reset_updated is cleared and nothing else changes |
| SmdTty.Channel.TiocmSet | arch/arm/mach-msm/smd_tty.c:667-678 | -ENETRESET in reset with no request sent; otherwise the request is passed on and the transport's answer returned |
| SmdTty.Channel.BufReqRetry | arch/arm/mach-msm/smd_tty.c:137-149 | the timer is no longer armed; the tasklet is scheduled iff the channel is open, otherwise nothing changes |
| SmdTty.Channel.Unthrottle | arch/arm/mach-msm/smd_tty.c:626-638 | the tasklet is scheduled iff the channel is open, otherwise nothing changes |
| SmdTty.Channel.Read | arch/arm/mach-msm/smd_tty.c:204-261 | without a tty nothing but the tasklet flag changes; otherwise the channel loses and the tty receives what Pump says; the retry timer is armed iff no buffer was granted; the read wake lock is dropped iff drained; writers are woken unless the run stopped for a buffer |
| SmdTty.Channel.Drain | arch/arm/mach-msm/smd_tty.c:215-256 | the loop ends for Pump's reason, leaves the channel without the consumed bytes, pushes Pump's items to the tty, arms the timed wake lock iff a byte moved, arms the retry timer on a refused buffer and drops the read wake lock when drained |
| SmdTty.Channel.OpenPort | arch/arm/mach-msm/smd_tty.c:372-505 | return code and appended ledger are Activate's for the slot's state on entry; pil holds the reference or the error pointer; on a failed subsystem_get the slot is otherwise unchanged (channel-allocated completion included); otherwise the slot ends as the read stage says |
| SmdTty.Channel.OpenReadSide | arch/arm/mach-msm/smd_tty.c:408-498 | code and ledger as ReadStage; on success the handle is open, the read interrupt off and the channel open; on failure the flags are as before and an opened handle is closed and cleared; the read resources are fresh once past the allocation wait; a successful wait on the channel-allocated completion leaves it signalled for later activations |
| SmdTty.Channel.OpenTransport | arch/arm/mach-msm/smd_tty.c:467-493 | code and ledger as TransportStage; on success the handle is the opened one, the read interrupt off and the flags as after OPEN (unless already open); on failure the flags are as before and a handle that was opened is cleared |
| SmdTty.Channel.Teardown | arch/arm/mach-msm/smd_tty.c:526-566 | is_open cleared (flags as after shutdown), tasklet, wake locks and retry timer gone, handle cleared, and the three releases appended in the source's order |
| SmdTty.Registry.Activate | arch/arm/mach-msm/smd_tty.c:355-506 | an index out of range or unconfigured gives -ENODEV without taking the mutex or touching the slot; otherwise the mutex is taken once and released on every exit, driver_data set, code and ledger as Activate, pil holding the reference or the error pointer, the channel-allocated completion signalled after a signalled allocation wait, and a loopback request made on the loopback port once the reference is taken; the frame is only the fields the open sequence writes, so open_wait, the channel's data, the retry timer and the attached tty are kept |
| SmdTty.Registry.Shutdown | arch/arm/mach-msm/smd_tty.c:508-570 | without driver data nothing happens; otherwise, under the mutex, the slot is closed (is_open 0), its handle cleared, everything released (Teardown) and driver_data cleared; the channel-allocated completion, open_wait, pil, the channel's data and the attached tty are kept, and the frame admits no other change |
| SmdTty.Registry.DummyProbe | arch/arm/mach-msm/smd_tty.c:706-727 | 0 iff an entry matches, else -ENODEV; the matched slot is a configured one and its channel-allocated completion is signalled; the frame is that one field of that one slot, so nothing else changes |

## Left out

- The sysfs `open_timeout` handlers (lines 151-199) are left out: they parse and print text.
- Driver registration and initialisation (lines 735-893) are left out, except that slots start closed and device names are filled in (`Registered`).
- The loopback delayed worker and `is_modem_smsm_inited` are left out, and so are the `msleep` calls and the 5000 ms and 100 ms delays on the loopback port. Activation counts the loopback request instead.
- Real time is left out: jiffies, the 30 ms retry delay, the HZ/2 wake-lock timeout and the wait timeouts. Each wait is an outcome parameter: signalled, timed out or interrupted.
- Channel-allocation and acknowledgment waits are modelled as outcomes. A completion that is already signalled, and a channel already marked open, count as signalled.
- The `CONFIG_MSM_SMD_TTY_DS_LEGACY` waits are not modelled: the data-services wait in activation and the wait for REOPEN_READY in shutdown. The REOPEN_READY event itself is modelled. `smd_tty_ds_probe` is not modelled.
- The branch where `smd_edge_to_subsystem` returns NULL is not modelled. Every edge in the table maps to a subsystem, so activation always takes a subsystem reference.
- `tasklet_kill`, `del_timer` and `wake_lock_destroy` are modelled as clearing flags. The waiting for a running tasklet is left out.
- Handlers are modelled as atomic. Interleavings inside a handler are left out, such as a DATA event in the middle of the read loop.
- `smd_tty_write_room`, `smd_tty_chars_in_buffer`, and the open and close wrappers around `tty_port_open`/`tty_port_close` are left out: each only forwards to the transport or to the tty framework.
- IPC logging is left out, as is the "possible buffer mismatch" log in the read loop. The model assumes `smd_read` returns the bytes asked for.
- The tty framework decides when shutdown runs; the model does not include that framework.
- SmdTty.Channel.Write: assumes `smd_write` accepts every byte it is offered up to the write space, and returns their number. `smd_write` itself is not part of this model.
- SmdTty.Channel.Notify: requires a tty on CLOSE, because the source dereferences it without a check (lines 316-317).
- SmdTty.Channel.TiocmGet: OUT1 and OUT2 report the reset state only when the transport's own signal word never sets those two bits. The type `ModemBits` of `lineSignals` assumes that. `StatusBits` states the general case.
- SmdTty.Channel.TiocmSet: `smd_tiocmset` is a foreign call. Its answer is a parameter, and the request is recorded in `signalRequests`.
- SmdTty.Registry.Activate: states the code, the ledger, the mutex, driver_data, the loopback request, pil and the channel-allocated completion, and its frame keeps every other field; the slot's flags and handle are not restated there. SmdTty.Channel.OpenPort states those.
- Attaching the tty to the port is done by the tty framework (`tty_port_open`) and is not modelled. `Channel.Attached`, which `Notify` requires, states that an attached tty has the slot's own index.
- The data-services device index, the 30 ms retry delay and the two-second acknowledgment timeout have no constants in the model: the data-services waits and real time are left out, as stated above.
