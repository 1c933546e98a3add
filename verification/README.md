# Sharp LQ079L1SX01 dual-link DSI panel driver, modelled in Dafny

This project models the Linux DRM panel driver for the Sharp LQ079L1SX01
(`drivers/gpu/drm/panel/panel-sharp-lq079l1sx01.c`). The panel is driven
over two MIPI-DSI links. The driver covers the following:

- It powers the panel up and down through four regulators (avdd, vddio,
  vsp, vsn) and a reset GPIO.
- It sends the DCS display-on/off and sleep commands to both links in
  lockstep.
- It describes the panel's single display mode.
- It pairs the two DSI devices at probe time. The device whose node
  carries a `link2` phandle owns the panel, and the other one only
  attaches to its host.

## How the model works

- Every call the driver makes into the kernel is an `Event`, for example
  `RegEnable(Vddio)`, `Dcs(Link2, SetDisplayOff, [])`, `Wait(100)`,
  `DevGet(d)` or `PanelAdd`.
- An entry point is a pure function of an `Oracle` (`Event -> int`). The
  oracle says what each call returns. The function returns an `Outcome`:
  the value the C function returns, plus the trace of calls it made.
- Waits are recorded in milliseconds, as the minimum the source asks for.
- Reference counting is read off the trace. `DevHeld`/`NodeHeld` count the
  gets minus the puts of a device or node reference.

Modules:

- `Trace`: events, the oracle, and projections of a trace:
  - enables, disables, reset levels, waits and DCS writes, in order;
  - the total wait;
  - reference counts;
  - `Mirrored`: every write goes to link1 and then, with the same command
    and payload, to link2.
- `Sequencer`: the C pattern "call; `if (err < 0) return err;`" as a
  script of `Try`/`TryZero`/`Do` steps. The module has:
  - one interpreter `Run`, whose contract characterises it completely:
    code 0 exactly when no step fails, otherwise the result of the first
    failing step, which ends the trace;
  - `Script`, which builds the steps of a body from its call list.
- `PowerSequence`: `sharp_panel_reset`, `sharp_panel_prepare` and
  `sharp_panel_unprepare`.
- `LinkPair`: `sharp_panel_enable`, `sharp_panel_disable`, and the
  unreachable body of `sharp_panel_enable` (as a separate function).
- `ModeDescriptor`: `default_mode` (with C's truncating division) and
  `sharp_panel_get_modes`.
- `Registration`: `sharp_panel_add`, `sharp_panel_del`,
  `sharp_panel_probe` and `sharp_panel_remove`.

Facts about the code that a reader might not expect:

- The device whose node has the `link2` phandle always owns the panel and
  is link1, whichever device is probed first. The device the phandle
  names is link2 and only attaches. A primary probed before its secondary
  is on the bus defers with `-EPROBE_DEFER` (`Registration.PairingRule`).
- Unprepare disables the rails in the fixed order avdd, vddio, vsp, vsn,
  which differs from prepare's order vddio, avdd, vsp, vsn.
- Enable returns 0 before it wakes the links or turns the display on, so
  `LinkPair.Enable` makes no call. The lines after the early return are
  modelled as `LinkPair.EnableBody`, which nothing calls.
- A failed prepare does not roll back. The rails enabled before the
  failing one stay enabled (`PowerSequence.PrepareRailFailure`).
- `sharp_panel_add` returns any nonzero backlight result (`if (ret)`),
  but probe only treats a negative result as failure. A positive result
  would therefore leave a panel that probe keeps but never registered
  (`Registration.ProbeKeepsUnregisteredPanel`). `drm_panel_of_backlight`
  is not part of this model, so whether it can return a positive value is
  left open.

## Model

| member | source | states |
|---|---|---|
| Sequencer.Run | drivers/gpu/drm/panel/panel-sharp-lq079l1sx01.c:41-47 | A body of calls, each followed by an early return on failure, makes its calls in order. It returns 0 exactly when no call fails, and then the trace is every call. Otherwise it returns the first failing call's result, and that call ends the trace. |
| Sequencer.ScriptRun | drivers/gpu/drm/panel/panel-sharp-lq079l1sx01.c:41-47 | For a body where only chosen calls are checked with `if (err < 0)`: the result is never positive, and it is 0 iff every checked call returns >= 0. The calls made are a prefix of the body. On failure the last call is a checked one, its negative result is returned, and every checked call before it succeeded. |
| Sequencer.ScriptStopsAt | drivers/gpu/drm/panel/panel-sharp-lq079l1sx01.c:41-47 | If checked call k fails and the checked calls before it succeed, the body returns that call's error, and its trace is exactly the calls up to k. |
| Sequencer.ScriptIgnoresAll | drivers/gpu/drm/panel/panel-sharp-lq079l1sx01.c:182-189 | A body that ignores every result makes all its calls and returns 0 under every oracle. |
| PowerSequence.ResetPulse | drivers/gpu/drm/panel/panel-sharp-lq079l1sx01.c:49-55 | The pulse makes exactly four calls: reset is driven to 1 and then 0, and each level is followed by a wait of at least 2 ms. |
| PowerSequence.Prepare | drivers/gpu/drm/panel/panel-sharp-lq079l1sx01.c:57-94 | Prepare returns 0 iff all four regulator enables succeed, and otherwise the negative error of the failing enable, which is the last call made. Its calls are a prefix of the full sequence, and all of it on success. |
| PowerSequence.PrepareSuccessShape | drivers/gpu/drm/panel/panel-sharp-lq079l1sx01.c:57-94 | A successful prepare enables vddio, avdd, vsp, vsn once each in that order and disables nothing. Every enable precedes the reset pulse (1 then 0). The waits are 12, 12, 24, 2, 2, 32 ms, 84 ms in total. |
| PowerSequence.PrepareRailFailure | drivers/gpu/drm/panel/panel-sharp-lq079l1sx01.c:63-87 | When the k-th enable fails after the earlier ones succeeded, prepare returns that error. The earlier rails stay enabled, nothing is disabled, and reset is not touched. |
| PowerSequence.Unprepare | drivers/gpu/drm/panel/panel-sharp-lq079l1sx01.c:178-190 | Unprepare returns 0. It asserts reset before anything else and leaves it asserted, then disables avdd, vddio, vsp, vsn in that order. It enables nothing, does not wait, and makes exactly those five calls. |
| PowerSequence.UnprepareIgnoresResults | drivers/gpu/drm/panel/panel-sharp-lq079l1sx01.c:184-189 | Unprepare's result and calls do not depend on what the regulator calls return. |
| PowerSequence.PrepareUnprepareBalanced | drivers/gpu/drm/panel/panel-sharp-lq079l1sx01.c:63-187 | A successful prepare followed by unprepare enables and disables every rail exactly once, so no rail is left enabled. |
| LinkPair.ExpandMirrored | drivers/gpu/drm/panel/panel-sharp-lq079l1sx01.c:118-125 | Any body written as "same command to link1, then to link2" lines and sleeps sends every write to link1 followed at once by the identical write to link2. |
| LinkPair.Disable | drivers/gpu/drm/panel/panel-sharp-lq079l1sx01.c:142-176 | Disable returns 0 iff all four DCS writes succeed, and then makes every call. Otherwise it returns the negative result of the first failing write, which ends the trace. |
| LinkPair.DisableOrder | drivers/gpu/drm/panel/panel-sharp-lq079l1sx01.c:148-172 | Whatever the links return, no enter-sleep write is sent before both display-off writes, and the writes that are sent are mirrored across the links. |
| LinkPair.DisableWaits | drivers/gpu/drm/panel/panel-sharp-lq079l1sx01.c:160-175 | A successful disable waits 100 ms between display-off and sleep and 150 ms after, 250 ms in total. |
| LinkPair.Enable | drivers/gpu/drm/panel/panel-sharp-lq079l1sx01.c:96-102 | Enable returns 0 without making any call. |
| LinkPair.EnableBody | drivers/gpu/drm/panel/panel-sharp-lq079l1sx01.c:104-139 | The unreachable enable body returns 0 iff every DCS write succeeds, and otherwise the first failing write's negative result. Its calls are a prefix of exit-sleep, 120 ms, brightness 0xff, power-save 0x01, control 0x2C and display-on, each sent to both links. |
| LinkPair.EnableBodyMirrored | drivers/gpu/drm/panel/panel-sharp-lq079l1sx01.c:104-137 | Whatever the links return, every write of the enable body goes to link1 and then identically to link2. |
| LinkPair.EnableBodyStopsOnLink2Wake | drivers/gpu/drm/panel/panel-sharp-lq079l1sx01.c:104-119 | If link2 fails to exit sleep mode, the enable body returns that error after the two exit-sleep writes and sends nothing else. |
| ModeDescriptor.CDiv | drivers/gpu/drm/panel/panel-sharp-lq079l1sx01.c:193 | C's integer division truncates toward zero. The quotient's magnitude is the quotient of the magnitudes, and its sign is negative only when exactly one operand is. |
| ModeDescriptor.CDivIdentity | drivers/gpu/drm/panel/panel-sharp-lq079l1sx01.c:193 | The quotient meets C's division identity: quotient times divisor plus remainder is the dividend, the remainder is smaller than the divisor in magnitude, and it is zero or has the dividend's sign. |
| ModeDescriptor.CDivUnique | drivers/gpu/drm/panel/panel-sharp-lq079l1sx01.c:193 | Any quotient that meets C's division identity is the one CDiv computes. |
| ModeDescriptor.DefaultModeTimings | drivers/gpu/drm/panel/panel-sharp-lq079l1sx01.c:192-204 | The mode is 1536x2048 with display < sync start < sync end < total in both directions, totals 1728 x 2072, and a 120 x 160 mm panel. |
| ModeDescriptor.DefaultModeClock | drivers/gpu/drm/panel/panel-sharp-lq079l1sx01.c:193 | The clock is 214824 kHz. The product fits in a C int, and it is the 60 Hz pixel rate truncated to whole kHz, so the refresh rate is between 59 and 60 Hz. |
| ModeDescriptor.GetModes | drivers/gpu/drm/panel/panel-sharp-lq079l1sx01.c:206-227 | get_modes returns 1 iff the mode could be duplicated, and otherwise -ENOMEM with the connector unchanged. On success it appends one copy of the default mode marked driver and preferred, keeps the earlier modes, and sets the connector's size to 120 x 160 mm. |
| Registration.Add | drivers/gpu/drm/panel/panel-sharp-lq079l1sx01.c:237-275 | Add returns 0 iff the four supplies and the reset line are found and the backlight lookup returns 0. Once every lookup succeeds, it returns the backlight result. On failure it returns the result of the first failing check, makes no later call, and never registers the panel. |
| Registration.AddStopsAt | drivers/gpu/drm/panel/panel-sharp-lq079l1sx01.c:244-263 | If the k-th lookup (avdd, vddio, vsp, vsn, reset) is the first to fail, add returns its error, and its calls are exactly the lookups up to that one. |
| Registration.AddLookupOrder | drivers/gpu/drm/panel/panel-sharp-lq079l1sx01.c:244-272 | Add looks up avdd, vddio, vsp, vsn in that order, then the reset line, and registers the panel only after every lookup. |
| Registration.AddHoldsNoReference | drivers/gpu/drm/panel/panel-sharp-lq079l1sx01.c:237-275 | Add neither takes nor drops a device or node reference. |
| Registration.Del | drivers/gpu/drm/panel/panel-sharp-lq079l1sx01.c:277-284 | Del unregisters the panel iff it was initialised, and drops exactly one reference to link2 iff there is one. |
| Registration.Probe | drivers/gpu/drm/panel/panel-sharp-lq079l1sx01.c:286-336 | Probe always writes 4 lanes, RGB888, video + LPM into the device, and never returns a positive value. It keeps a panel iff it succeeds and found a secondary, and that panel is (this device as link1, the secondary as link2, initialised). |
| Registration.ProbeReleases | drivers/gpu/drm/panel/panel-sharp-lq079l1sx01.c:297-336 | Whatever every call returns, probe holds no node reference. It holds a reference to the secondary iff it keeps a panel driving it. It takes that reference once and drops it once exactly when it fails. A panel it registered is unregistered again on failure, and otherwise kept as an initialised panel. |
| Registration.ProbeLinked | drivers/gpu/drm/panel/panel-sharp-lq079l1sx01.c:298-336 | With a `link2` phandle whose node has no device, probe returns -EPROBE_DEFER and makes only the node get and put. With a device, probe keeps a panel iff it returns 0. |
| Registration.LinkedReleases | drivers/gpu/drm/panel/panel-sharp-lq079l1sx01.c:298-336 | The phandle's node reference is dropped at once. The secondary's device reference is taken once, and dropped once exactly when the rest of probe fails. |
| Registration.ProbeOwner | drivers/gpu/drm/panel/panel-sharp-lq079l1sx01.c:308-336 | Once the secondary is found, a failed allocation returns -ENOMEM after only dropping the secondary's reference. Otherwise the panel is kept iff probe returns 0. |
| Registration.OwnerUnwinds | drivers/gpu/drm/panel/panel-sharp-lq079l1sx01.c:308-336 | After the lookup, probe fails exactly when the allocation, add or the attach fails. No further device reference is taken. The secondary's reference is dropped once on every failure path (allocation, add, attach) and never on success, and no other device reference is dropped. A panel registered before a failure is unregistered. |
| Registration.AfterAdd | drivers/gpu/drm/panel/panel-sharp-lq079l1sx01.c:320-336 | After add returns, probe returns 0 and keeps the panel iff add did not fail and the attach succeeded, and never returns a positive value. A failed add's error is returned after only the put of the secondary. A failed attach's error is returned after del of the initialised panel. |
| Registration.AfterAddUnwinds | drivers/gpu/drm/panel/panel-sharp-lq079l1sx01.c:320-333 | Once add has returned, no device reference is taken and the secondary's reference is dropped once iff probe fails. A panel registered before the failure is unregistered. |
| Registration.AfterAddAttached | drivers/gpu/drm/panel/panel-sharp-lq079l1sx01.c:320-335 | An add that did not fail, followed by an accepted attach, gives 0, the attach as the only further call, and the initialised panel kept. |
| Registration.ProbeAttached | drivers/gpu/drm/panel/panel-sharp-lq079l1sx01.c:297-335 | With the secondary present, memory, every lookup succeeding, a nonnegative backlight result and an accepted attach, probe returns 0 and keeps the panel. Its calls are the phandle lookup, add's calls, and the attach. |
| Registration.ProbeAttachedAdds | drivers/gpu/drm/panel/panel-sharp-lq079l1sx01.c:268-335 | Under those conditions with a zero backlight result, the panel is registered and the attach is the last call. |
| Registration.ProbeAttachedSkipsAdd | drivers/gpu/drm/panel/panel-sharp-lq079l1sx01.c:268-335 | Under those conditions with a positive backlight result, the panel is never registered. |
| Registration.AddRegisters | drivers/gpu/drm/panel/panel-sharp-lq079l1sx01.c:268-274 | When every lookup succeeds and the backlight lookup returns 0, add registers the panel. |
| Registration.AddStopsAtBacklight | drivers/gpu/drm/panel/panel-sharp-lq079l1sx01.c:268-270 | A positive backlight result returns from add before the panel is registered. |
| Registration.Remove | drivers/gpu/drm/panel/panel-sharp-lq079l1sx01.c:338-350 | Remove detaches first, whatever the result. A device without driver data does nothing else. An owner makes at most two further calls, unregistering an initialised panel and dropping the secondary's reference, and nothing else. |
| Registration.RemoveAfterProbe | drivers/gpu/drm/panel/panel-sharp-lq079l1sx01.c:338-350 | Removing a device whose probe kept a panel makes exactly three calls: the detach, the unregistering of the panel and the put of the secondary. |
| Registration.ProbeDefers | drivers/gpu/drm/panel/panel-sharp-lq079l1sx01.c:298-305 | When the phandle's node has no device yet, probe returns -EPROBE_DEFER and only takes and drops the node reference. |
| Registration.AfterAddAttachFails | drivers/gpu/drm/panel/panel-sharp-lq079l1sx01.c:327-333 | An add that did not fail followed by a refused attach gives the attach error, no panel, and the attach, the unregistering and the put of the secondary as the only further calls. |
| Registration.OwnerAttachFails | drivers/gpu/drm/panel/panel-sharp-lq079l1sx01.c:309-333 | With memory, every lookup succeeding and a nonnegative backlight result, a refused attach gives its error, no panel, and after add's calls only the attach, the unregistering and the put of the secondary. |
| Registration.ProbeNoMemory | drivers/gpu/drm/panel/panel-sharp-lq079l1sx01.c:308-313 | With the secondary present and no memory, probe returns -ENOMEM and keeps no panel. After the lookup its only call is the put of the secondary. |
| Registration.ProbeAddFails | drivers/gpu/drm/panel/panel-sharp-lq079l1sx01.c:297-324 | With the secondary present and memory available, a failing lookup or a negative backlight result makes probe return add's error, keep no panel, and make only the lookup, add's calls and the put of the secondary. |
| Registration.ProbeAttachFails | drivers/gpu/drm/panel/panel-sharp-lq079l1sx01.c:297-333 | With the secondary present, memory, every lookup succeeding and a nonnegative backlight result, a refused attach makes probe return its error and keep no panel. After add's calls and the attach, del unregisters the panel and drops the secondary. |
| Registration.ProbeFailureDropsSecondary | drivers/gpu/drm/panel/panel-sharp-lq079l1sx01.c:308-333 | With the secondary present and memory available, a failed add or attach makes probe fail. The secondary's reference is taken once and dropped once, so probe no longer holds it. |
| Registration.ProbeWithoutLink2 | drivers/gpu/drm/panel/panel-sharp-lq079l1sx01.c:297-335 | A device without a `link2` phandle only attaches. It keeps no panel and returns the attach error, or 0. |
| Registration.ProbeRegistersPanel | drivers/gpu/drm/panel/panel-sharp-lq079l1sx01.c:307-335 | With the secondary present, memory, all lookups succeeding and the attach accepted, probe returns 0, registers the panel, keeps it, and attaches last. |
| Registration.ProbeKeepsUnregisteredPanel | drivers/gpu/drm/panel/panel-sharp-lq079l1sx01.c:268-335 | A positive backlight result makes add return early, yet probe succeeds and keeps a panel that was never registered, which remove then unregisters. |
| Registration.ProbeThenRemove | drivers/gpu/drm/panel/panel-sharp-lq079l1sx01.c:286-350 | Probe followed by remove leaves no device or node reference, and a registered panel is unregistered, whatever every call returns. |
| Registration.RemoveDropsReferences | drivers/gpu/drm/panel/panel-sharp-lq079l1sx01.c:338-350 | Remove drops exactly the device references a probe left held, and no node reference. |
| Registration.RemoveUnregisters | drivers/gpu/drm/panel/panel-sharp-lq079l1sx01.c:338-350 | After remove, every panel that probe registered has been unregistered, either by probe's own failure path or by remove. |
| Registration.PairingRule | drivers/gpu/drm/panel/panel-sharp-lq079l1sx01.c:297-325 | Of the two devices of a panel, only the one with the phandle can own it, with itself as link1 and the other as link2. The other never registers a panel, and the owner defers while the other is missing. |

## Left out

- Kernel services are not modelled; each call is an event whose result an
  oracle supplies. This covers regulators, GPIO, DCS transfers, device-tree
  lookups, devm allocation, drm_panel_init/add/remove, backlight lookup,
  and DSI attach/detach.
- DCS opcodes are kept symbolic. Their numeric values are defined outside
  this driver.
- `mipi_dsi_dcs_write_buffer` in the `dsi_generic_write_seq` macro is
  modelled like the other DCS calls: one fallible write carrying the
  command and payload.
- PowerSequence.ResetPulse: each `usleep_range(2000, 3000)` is recorded as
  its 2 ms minimum, because the 3 ms upper bound is a scheduling hint with
  no effect on the call sequence. `msleep` is modelled the same way, as
  its minimum.
- The reset GPIO is optional. When it is absent, `gpiod_set_value_cansleep`
  does nothing inside gpiolib, so the model still records the reset events.
- `drm_mode_set_name`, `drm_mode_vrefresh` and the error message in
  get_modes are logging and naming only. `drm_mode_duplicate` is reduced
  to whether it could allocate.
- Registration.Probe: the driver data a failed probe leaves behind is
  modelled as none, because the driver core clears it after a failed
  probe. The source sets it before `sharp_panel_add` and never clears it.
- The `sharp->mode` assignment (line 242) is not modelled. Nothing else in
  the file reads it.
- The `drm_panel_funcs` table (lines 229-235) is not modelled. Neither are
  the match table, driver structure and module macros (lines 352-370).
- Kernel log messages (`dev_err`) are not modelled.
- The panel's lifecycle state is not modelled. The DRM core decides when
  prepare/enable/disable/unprepare are called, and it is not part of this
  model.
- Concurrency is not modelled. The DRM core serialises the panel callbacks.
