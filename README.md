# Verified model of three OnePlus One (msm8974) kernel drivers

This project models, in Dafny, the decision logic of three small drivers of
the OnePlus One kernel and proves what they promise:

- **msm-thermal-simple** (`drivers/thermal/msm_thermal.c`), a periodic
  thermal throttling controller. Every tick it reads the die temperature.
  If it is throttling and the reading is strictly below
  `temp_threshold - safe_diff`, it lifts the frequency ceiling. Otherwise it
  picks a ceiling from a nine-step ladder and applies it. Applying a ceiling
  (`limit_cpu_freqs`) stores it in the driver state `info`. It brings CPUs 1
  to 3 online or takes one of them offline, depending on the ceiling's band.
  It also has the cpufreq core re-evaluate the policy of every online CPU. A
  cpufreq policy notifier clamps each policy's maximum to the ceiling.
  Module `MsmThermal`, file `thermal.dfy`.
- **tri-state-key** (`drivers/input/misc/tri_state_key.c`), the three-way
  alert slider. The GPIO levels of its keys select MUTE, DO_NOT_DISTURB or
  NORMAL. Old boards use two keys and new boards use three. Module
  `TriStateKey`, file `tri_state_key.dfy`.
- **soundcontrol** (`drivers/misc/sound_control.c`), the sysfs attributes
  `highperf_enabled` (show and store of the headphone high-performance flag)
  and `version`. Module `SoundControl`, file `sound_control.dfy`.

The driver state is a class in each module. For the thermal driver it is
`ThermalInfo`, which holds the fields of `info`, the tunable
`temp_threshold`, the CPU online mask as an `array<bool>` of `NR_CPUS` = 4
entries, and one `Policy` object per CPU. Its methods follow the C functions
statement by statement. Their postconditions relate the new state to pure
specification functions: `Ladder`, `Hotplug`, `Reevaluated` and `Tick`. The
lemmas then prove the properties of those functions.

Unsigned 32-bit arithmetic is modelled where it can wrap. The ladder bounds
`temp_threshold + LEVEL_X` are taken modulo 2^32, and so is the recovery
bound `temp_threshold - safe_diff`. `LONG_MAX` stored in the `uint32_t`
`cpuinfo_max_freq` is 2^31 - 1 on this 32-bit ARM target. Temperatures are
unbounded integers.

What the thermal model shows about the code as written:

- The ladder's last branch, `else if (temp < temp_threshold)`, is always
  taken when reached. So `freq` is never 0 and the `if (freq)` guard always
  holds (`Ladder`).
- As a result, when `temp_threshold + LEVEL_NOTE_7` does not wrap past
  2^32, a device below both `temp_threshold` and
  `temp_threshold - safe_diff` never settles. It alternates between
  `FREQ_MAX` and no limit on successive ticks (`CoolDeviceAlternates`). The
  model keeps this behaviour. (If the sum wraps, for instance after `-1` is
  written to the `int` module parameter, low bounds make cool readings land
  in hot bands instead.)
- If `temp_threshold` is set below `safe_diff`, the unsigned subtraction
  wraps. Every throttled tick then recovers (`WrappedRecoveryBound`).

## Model

| member | source | states |
|---|---|---|
| `MsmThermal.Ladder` | drivers/thermal/msm_thermal.c:156-175 | The ladder is total: every reading yields one of the nine `FREQ_*` ceilings and never 0, so the `if (freq)` actuation guard always holds. |
| `MsmThermal.LadderIsLookup` | drivers/thermal/msm_thermal.c:156-173 | The `else if` chain equals a first-match lookup in the ordered band table `Bands`, for every reading and threshold. |
| `MsmThermal.BandsWellFormed` | drivers/thermal/msm_thermal.c:44-64 | The band table has strictly falling offsets and strictly rising ceilings, all at or below `FREQ_MAX`. |
| `MsmThermal.LookupMonotone` | drivers/thermal/msm_thermal.c:156-173 | In any table with rising ceilings, a hotter reading never gets a higher ceiling, even with wrapped bounds. |
| `MsmThermal.LadderMonotone` | drivers/thermal/msm_thermal.c:156-173 | Ladder monotonicity: for `t1 <= t2`, `Ladder(t2) <= Ladder(t1)`, for every threshold. |
| `MsmThermal.LadderAtBand` | drivers/thermal/msm_thermal.c:156-171 | Without wrap-around, a reading exactly at `temp_threshold + LEVEL_X` is in band X (the `>=` is inclusive), and one degree below it is in the next cooler band. |
| `MsmThermal.CountOnline` | drivers/thermal/msm_thermal.c:115 | The online count is at most `NR_CPUS` and equals it exactly when every CPU is online, which is when the bring-up block is skipped. |
| `MsmThermal.OnlineStep` | drivers/thermal/msm_thermal.c:115-122 | The bring-up step only brings CPUs online, never touches CPU 0, and does nothing for a ceiling at or below `FREQ_BBQ`. |
| `MsmThermal.OfflineStep` | drivers/thermal/msm_thermal.c:129-134 | The shed step only takes CPUs offline, changes at most one CPU, never touches CPU 0, and does nothing unless the ceiling is exactly `FREQ_VERY_HOT`, `FREQ_MICROWAVE` or `FREQ_BBQ`. |
| `MsmThermal.Hotplug` | drivers/thermal/msm_thermal.c:115-134 | The whole hot-plug rule never touches CPU 0 and changes nothing for a ceiling below `FREQ_BBQ`. |
| `MsmThermal.OnlineByBand` | drivers/thermal/msm_thermal.c:115-122 | The mask during the policy update in closed form: CPU 1, 2, 3 is online when it was or when the ceiling is above `FREQ_BBQ`, `FREQ_MICROWAVE`, `FREQ_VERY_HOT`; the `num_online_cpus() < NR_CPUS` guard changes nothing. |
| `MsmThermal.HotplugByBand` | drivers/thermal/msm_thermal.c:115-134 | The online mask a ceiling leaves, band by band. CPU 0 is untouched. Above `FREQ_VERY_HOT` all CPUs run. At exactly `FREQ_VERY_HOT`, `FREQ_MICROWAVE` or `FREQ_BBQ`, CPU 3, 2 or 1 is offline. Between bands, CPUs above the band stay as they were. Below `FREQ_BBQ` nothing changes. |
| `MsmThermal.HotplugIdempotent` | drivers/thermal/msm_thermal.c:115-134 | Applying one ceiling's hot-plug rule twice gives the same mask as applying it once. |
| `MsmThermal.VerifyWithinLimits` | drivers/thermal/msm_thermal.c:92-93 | The clamped policy window has `max <= limited_max_freq` and `min <= max`. It never drops below the hardware floor when the floor is below the ceiling. It leaves a window already within limits untouched. When the proposed max is at or above the hardware floor, the new max is `min(max, ceiling)`; a proposed max below the floor is first raised to the floor. |
| `MsmThermal.Reevaluated` | drivers/thermal/msm_thermal.c:124-127 | A re-evaluated policy's maximum never exceeds the ceiling in force. |
| `MsmThermal.Tick` | drivers/thermal/msm_thermal.c:148-180 | After any tick, the ceiling is no limit or a ladder value, and `throttling` is set exactly when a ceiling below no limit is in force. |
| `MsmThermal.Run` | drivers/thermal/msm_thermal.c:139-183 | Over any sequence of rescheduled ticks, the ceiling stays no limit or a ladder value, and `throttling` stays tied to it. |
| `MsmThermal.HysteresisBoundary` | drivers/thermal/msm_thermal.c:148-154 | With `throttling` set, a reading exactly at `temp_threshold - safe_diff` does not recover (the ladder applies). One degree below recovers to no limit and clears `throttling`. |
| `MsmThermal.CoolDeviceAlternates` | drivers/thermal/msm_thermal.c:148-180 | When `temp_threshold + LEVEL_NOTE_7` does not wrap past 2^32, a reading below the threshold and the recovery bound makes ticks alternate between (`FREQ_MAX`, throttling) and (no limit, not throttling). |
| `MsmThermal.WrappedRecoveryBound` | drivers/thermal/msm_thermal.c:149 | With `temp_threshold < safe_diff`, the unsigned subtraction wraps, and every throttled tick below 2^32 - `safe_diff` recovers. |
| `MsmThermal.DefaultScenario` | drivers/thermal/msm_thermal.c:148-176 | With threshold 38 and safe_diff 5, the readings 38, 44, 50, 70, 33, 32 give `FREQ_ZIPPY`, `FREQ_HOT`, `FREQ_BBQ`, `FREQ_NOTE_7`, `FREQ_MAX` (33 is not below 33), and then no limit. |
| `MsmThermal.ThermalInfo.constructor` | drivers/thermal/msm_thermal.c:27-42 | Initial state: threshold 38, safe_diff 5, ceiling `LONG_MAX` (= `cpuinfo_max_freq`), not throttling, no change pending. |
| `MsmThermal.ThermalInfo.CpuOfflineWrapper` | drivers/thermal/msm_thermal.c:72-76 | Takes only the given CPU offline, and acts exactly when it was online. |
| `MsmThermal.ThermalInfo.CpuOnlineWrapper` | drivers/thermal/msm_thermal.c:78-82 | Brings only the given CPU online, and acts exactly when it was offline. |
| `MsmThermal.ThermalInfo.Callback` | drivers/thermal/msm_thermal.c:84-96 | Always returns 0. Leaves the policy untouched when the event is not `CPUFREQ_ADJUST` and no change is pending. Otherwise clamps the policy window to [hardware floor, `limited_max_freq`]. |
| `MsmThermal.ThermalInfo.UpdatePolicy` | drivers/thermal/msm_thermal.c:126 | Re-evaluating one CPU's policy leaves its window at the user's window clamped to the current ceiling. |
| `MsmThermal.ThermalInfo.UpdateOnlinePolicies` | drivers/thermal/msm_thermal.c:124-127 | Runs only while `pending_change` is set. Every online CPU's policy is re-evaluated under the ceiling, and offline CPUs' policies are unchanged. |
| `MsmThermal.ThermalInfo.LimitCpuFreqs` | drivers/thermal/msm_thermal.c:102-137 | Afterwards `limited_max_freq == f` and `pending_change` is false. If `f` was already in force, nothing changes, so a second call with the same `f` is a no-op. Otherwise the online mask becomes `Hotplug(old mask, f)`, and exactly the CPUs online during the update have re-evaluated policies. |
| `MsmThermal.ThermalInfo.CheckTemp` | drivers/thermal/msm_thermal.c:139-184 | One tick moves (ceiling, throttling) as `Tick` says, keeps the coupling between `throttling` and the ceiling, and hot-plugs and re-evaluates policies only when the ceiling changed. |
| `TriStateKey.OldHwMatchesPinTable` | drivers/input/misc/tri_state_key.c:30-82 | On old hardware the decoder reproduces every row of the wiring table in the comment. It always yields a real mode, never `MODE_UNKNOWN`, and KEY2 low gives NORMAL whatever KEY1 is. |
| `TriStateKey.NewHwOnPinTable` | drivers/input/misc/tri_state_key.c:84-94 | On new hardware with KEY3 high, the MUTE and NORMAL rows agree with the old decoder. All keys high keeps the state, and KEY3 low alone gives DO_NOT_DISTURB. |
| `TriStateKey.TriStateKeyDevice.constructor` | drivers/input/misc/tri_state_key.c:67-70 | Zero-initialised driver data: state `MODE_UNKNOWN`, `hw_version == hw_old`. |
| `TriStateKey.TriStateKeyDevice.SelectHwVersion` | drivers/input/misc/tri_state_key.c:119-123 | `hw_version` is `hw_new` exactly when the key3 GPIO lookup did not return `-EINVAL`. |
| `TriStateKey.TriStateKeyDevice.SwitchDevWork` | drivers/input/misc/tri_state_key.c:71-97 | On old hardware the state is the nested two-key decision. On new hardware the three sequential writes equal a priority rule: KEY1 low gives MUTE, else KEY3 low gives DO_NOT_DISTURB, else KEY2 low gives NORMAL, else the state is unchanged. |
| `SoundControl.ParseHphPerf` | drivers/misc/sound_control.c:31 | A buffer is accepted exactly when its first byte is `'0'` or `'1'` and its second is `'\n'`. The value is that digit, and later bytes are ignored. |
| `SoundControl.Digits` | drivers/misc/sound_control.c:23 | `%d` of a non-negative value is a non-empty string of decimal digits, one character long exactly for values below 10. |
| `SoundControl.ShowThenStore` | drivers/misc/sound_control.c:18-36 | Storing what show wrote never changes the flag. 0 and 1 are re-stored as themselves, and every other value's text is refused. |
| `SoundControl.StoreThenShow` | drivers/misc/sound_control.c:21-33 | After an accepted store, show writes back exactly the two accepted bytes. |
| `SoundControl.StoreIdempotent` | drivers/misc/sound_control.c:31-33 | Storing the same buffer twice equals storing it once. An accepted store leaves 0 or 1, and a refused one leaves the flag unchanged. |
| `SoundControl.SoundcontrolVersionShow` | drivers/misc/sound_control.c:38-41 | The version attribute always writes `"0\n"` and returns 2. |
| `SoundControl.SoundControlDevice.HphPerfShow` | drivers/misc/sound_control.c:18-26 | Show writes the flag in decimal followed by a newline and returns that length. For 0 and 1 it is the two bytes digit and newline. |
| `SoundControl.SoundControlDevice.HphPerfStore` | drivers/misc/sound_control.c:28-36 | Store always returns `count`. It sets the flag to the parsed digit on an accepted buffer and leaves it unchanged otherwise. |

## Left out

- Temperature source: the ADC read (`qpnp_vadc_read`) is not modelled. The
  reading is a parameter of `CheckTemp`, and a failed read is not modelled.
- Rescheduling: the 250 ms reschedule and the first queueing at probe are
  left out. One tick is one `CheckTemp` call, and `Run` folds ticks over a
  sequence of readings.
- Concurrency: the tri-state mutex, `get_online_cpus`/`put_online_cpus`, and
  the unsynchronised race between the notifier and the actuator are left
  out. Everything is sequential.
- CPU hot-plug: `cpu_up` and `cpu_down` are assumed to succeed. Each is
  modelled as setting one entry of the online mask. Their failure modes and
  the notifiers they trigger are not modelled.
- `cpufreq_verify_within_limits` is kernel code that is not part of this
  model. It is modelled after the kernel's inline of that name: raise both
  ends to the floor, lower both ends to the ceiling, then keep min <= max.
- `cpufreq_update_policy` is kernel code that is not part of this model.
  `UpdatePolicy` models it as re-proposing the user's window and calling the
  notifier once with `CPUFREQ_ADJUST`. The driver's own `verify` step and the
  `CPUFREQ_INCOMPATIBLE` and `CPUFREQ_NOTIFY` passes are not modelled.
- Integer widths: temperatures (`int64_t`) are unbounded. The policy
  windows and the high-performance flag are unbounded too. Unsigned wrap is
  modelled only in the ladder bounds and the recovery bound.
- Logging: `pr_info_ratelimited`, `printk` and `pr_err` are left out.
- Driver plumbing: probe, remove, init and exit of all three drivers,
  device-tree parsing other than the key3 lookup, GPIO and IRQ requests,
  timers, work queues and sysfs registration are left out. These are I/O and
  registration code.
- GPIO: the write `gpio_set_value(key3_gpio, 0)` before the new-hardware
  decode is left out. Key levels are inputs to `SwitchDevWork`, and
  `switch_set_state` is a field assignment (its uevent is not modelled).
- sysfs: the sysfs write buffer is the written bytes followed by a
  zero-filled page, so reading past `count` gives NUL. Show's
  caller-supplied buffer is modelled as the returned string.
- `arch/arm/mach-msm/include/mach/device_info.h` declares a struct and has
  no behaviour.
