# KidsBar peripheral core in Dafny

This project models the firmware core of KidsBar/CryptoBar, an ESP32 desk gadget. The modelled parts are:

- **Encoder** (`encoder.dfy`): the rotary-encoder step decoder. It turns raw pulse-counter readings into UI steps.
  - Counts accumulate into detents of 6.
  - Readings above 16 counts are rejected as EMI spikes.
  - At most 3 steps are emitted per poll; the rest waits in a backlog.
  - Fast single-step reversals within 10 ms are filtered.
- **LedStatus** (`led_status.dfy`): the LED status engine.
  - Master-brightness scaling.
  - The de-duplicating write cache and its periodic re-assert.
  - The near-zero trend hysteresis and the animation-mode choice, including the Party and invalid-price overrides.
  - The linear fade, the animation loop and the background-task setup.
- **Host** (`host.dfy`): the emulator host of `main.cpp`.
  - The one-bit-per-pixel LCD buffer and the icon flags.
  - The button states reported to the emulator.
  - The debounced input loop that turns encoder steps and the push switch into one current button.
- **TimeSetup** (`time_setup.dfy`): the interactive clock-setting loop. Five clamped fields plus CONFIRM are edited with the encoder.
- **AppState** (`app_state.dfy`): the virtual pet's once-a-minute needs update, and its resets.
- **SettingsStore** (`settings_store.dfy`): persistent settings over a key-value namespace.
  - Defaults and range normalisation.
  - Migration of the legacy coin index.
  - Save, and the WiFi credentials.
- **Ui** (`ui.dfy`): the screen arithmetic.
  - The 12-hour clock.
  - How many decimals a price is shown with.
  - The large-layout offset.
  - The chart's value range.
  - The dashed previous-day line.
- **Units** (`units.dfy`): shared pieces.
  - 32-bit unsigned time with wraparound-safe differences.
  - Bytes.
  - The step cell shared between the encoder poll and its consumers.

C statics become Dafny classes whose methods update fields. Each mutating method's postcondition ties its new state to a pure function of the old state. The properties the firmware relies on are proved as lemmas about those functions:
- conservation of encoder counts;
- the rate limit;
- the bounce filter's exact condition;
- scaling never brightens;
- the re-assert round trip;
- the fade ends at its target;
- the trend and Party hysteresis;
- clamped editing keeps the clock fields in range;
- save-then-load gives back the saved settings, normalised;
- the 12-hour round trip;
- dash spacing.

`millis()`, the wall clock and the switch level are parameters. The breathing sine and the HSV colour wheel are parameters too (`wave`, `rainbow`).

## Model

| member | source | states |
|---|---|---|
| Units.Abs | src/encoder_pcnt.cpp:147 | `abs`: the result is x or -x and never negative |
| Units.Sign | src/encoder_pcnt.cpp:195 | the direction of an emission: 1 or -1, 0 only for 0, and sign times value is the magnitude |
| Units.Elapsed | src/led_status.cpp:179 | `(uint32_t)(now - since)`: `since` plus the result is `now` modulo 2^32 |
| Units.ElapsedNoWrap | src/led_status.cpp:179 | without a wrap, the elapsed time is the plain difference |
| Units.ElapsedAcrossWrap | src/led_status.cpp:179 | across a wrap, the elapsed time is 2^32 - since + now |
| Units.StepAccumulator.constructor | src/main.cpp:39 | the shared step cell starts at 0 |
| Units.StepAccumulator.Drain | src/main.cpp:193-197 | read-and-clear: returns the old value and leaves 0 |
| Encoder.Detents | src/encoder_pcnt.cpp:166-176 | whole detents and remainder: sum = 6·q + r, with \|r\| < 6 and r carrying the sign of the sum |
| Encoder.DetentsUnique | src/encoder_pcnt.cpp:166-176 | those four facts determine the quotient and remainder uniquely |
| Encoder.ExtractDetents | src/encoder_pcnt.cpp:168-176 | the two while loops compute exactly `Detents` of the accumulated sum |
| Encoder.ClampEmit | src/encoder_pcnt.cpp:187-190 | the emission keeps the backlog's sign, has magnitude min(\|backlog\|, 3) and never exceeds 3 |
| Encoder.Bounce | src/encoder_pcnt.cpp:194-207 | only a single step is ever suppressed, never one in the last direction and never once 10 ms have passed |
| Encoder.Resolved | src/encoder_pcnt.cpp:166-224 | counts are conserved: 6·(backlog + emitted) + remainder grows by the reading. The remainder stays within ±5 and at most 3 steps go out |
| Encoder.PollSpec | src/encoder_pcnt.cpp:105-235 | one poll clears the counter and emits at most 3 steps either way. Not running: accumulator and backlog are zeroed and nothing is emitted. A zero reading or a spike over 16 changes nothing. Counts are conserved: 6·(backlog + emitted) + accum grows by the accepted reading. The direction and time stamp change exactly when something is emitted |
| Encoder.ZeroReadingKeepsBacklog | src/encoder_pcnt.cpp:140 | a zero reading returns early: the backlog is not drained without motion |
| Encoder.SpikeIsDiscarded | src/encoder_pcnt.cpp:146-154 | a reading above 16 clears the counter and touches no other state |
| Encoder.BounceFilter | src/encoder_pcnt.cpp:194-224 | a nonzero clamped emission is zeroed iff all bounce conditions hold. A zeroed step stays in the backlog; otherwise the emission leaves the backlog |
| Encoder.ReversalAfterWindow | src/encoder_pcnt.cpp:203-207 | once 10 ms have passed since the last step, the full clamped emission goes out, reversal or not |
| Encoder.Run | src/encoder_pcnt.cpp:105-235 | a run of polls emits one amount per reading |
| Encoder.RunConserves | src/encoder_pcnt.cpp:166-224 | over any run of polls, every accepted count ends in the remainder, the backlog or the shared cell |
| Encoder.RunEmitsBounded | src/encoder_pcnt.cpp:187-190 | every poll of any run emits at most 3 steps either way |
| Encoder.SixThreeThree | src/encoder_pcnt.cpp:166-176 | readings +6, +3, +3 emit 1, 0, 1: the second +3 completes the detent |
| Encoder.Decoder.constructor | src/encoder_pcnt.cpp:90-93 | the statics start at zero |
| Encoder.Decoder.Begin | src/encoder_pcnt.cpp:86-93 | `encoderPcntBegin` clears the counter and resets every static |
| Encoder.Decoder.Count | src/encoder_pcnt.cpp:122-123 | the pulse counter adds the edges it sees; nothing else changes |
| Encoder.Decoder.ResolveDelta | src/encoder_pcnt.cpp:166-224 | the detent, backlog, clamp and bounce code leaves the statics and emission that `Resolved` gives |
| Encoder.Decoder.Poll | src/encoder_pcnt.cpp:105-235 | `encoderPcntPoll`. It does nothing without the cell or the lock. Otherwise it leaves statics and counter as `PollSpec` says and adds the emission to the shared cell |
| LedStatus.ClampUnit | src/led_status.cpp:137-141 | master brightness clamped to [0, 1], unchanged when already inside |
| LedStatus.ScaledNotAbove | src/led_status.cpp:155-156 | rounding `v·m + 0.5` down with m <= 1 never exceeds v and is never negative |
| LedStatus.ScaleBright | src/led_status.cpp:152-157 | a scaled channel never exceeds its input. It is 0 at or below the off level and unchanged at full factor |
| LedStatus.ScaleColor | src/led_status.cpp:173-175 | every channel of the scaled colour is at most the logical one |
| LedStatus.LogicalOf | src/led_status.cpp:163-171 | the logical colour recorded is black when master is off, the requested colour otherwise |
| LedStatus.Physical | src/led_status.cpp:163-175 | the bus colour is black when master is off and never brighter than requested. It equals the request at full master and factor |
| LedStatus.Pack | src/led_status.cpp:177 | packed RGB fits in 24 bits, so it never equals the empty-cache sentinel 0xFFFFFFFF |
| LedStatus.UnpackPack | src/led_status.cpp:205-207 | unpacking a packed colour gives the colour back |
| LedStatus.PackUnpack | src/led_status.cpp:177 | packing an unpacked 24-bit value gives the value back |
| LedStatus.ReassertColor | src/led_status.cpp:203-207 | the re-sent colour is black for the sentinel, and packs back to the cache otherwise |
| LedStatus.ReassertRoundTrip | src/led_status.cpp:177-207 | the service re-asserts exactly the colour last written |
| LedStatus.SkipWrite | src/led_status.cpp:177-179 | an empty cache never suppresses a write. At the moment of the last write, a write is suppressed iff its colour equals the cached one |
| LedStatus.TruncDiv | src/led_status.cpp:226-228 | C division by a positive divisor: magnitude \|a\|/b, sign of a |
| LedStatus.FadeStepBounded | src/led_status.cpp:226-228 | a fade offset never overshoots the difference and equals it at the last step |
| LedStatus.FadeChannel | src/led_status.cpp:226-228 | each fade value lies between start and target and is the target at the last step |
| LedStatus.FadeColor | src/led_status.cpp:226-228 | the last fade frame is the target colour |
| LedStatus.FadeWrites | src/led_status.cpp:225-239 | a fade of n steps writes n frames, the i-th being frame i scaled |
| LedStatus.FadeEndsAtTarget | src/led_status.cpp:225-248 | the last frame of a complete fade is the scaled target |
| LedStatus.NextTrend | src/led_status.cpp:344-355 | trend hysteresis. Neutral goes Up iff change > 0.02 and Down iff change < -0.02. Up returns to Neutral iff change < 0.005 and Down iff change > -0.005. Up and Down never swap directly |
| LedStatus.TrendSequence | src/led_status.cpp:344-355 | +0.03, +0.001, -0.03 from Neutral give Up, Neutral, Down |
| LedStatus.AbsReal | src/led_status.cpp:109 | `absf`: the result is x or -x and never negative |
| LedStatus.TrendColor | src/led_status.cpp:364-366 | the base colour is gray iff neutral, green iff up, red iff down |
| LedStatus.ModeFor | src/led_status.cpp:357-361 | BreatheFast iff \|change\| >= 10, BreatheSlow iff 5 <= \|change\| < 10, Solid iff below 5; never Party |
| LedStatus.PeriodFor | src/led_status.cpp:379-380 | 900 ms for BreatheFast, 2400 ms otherwise |
| LedStatus.BreathePhase | src/led_status.cpp:298-305 | the phase lies within the period, whether from epoch time or time since start |
| LedStatus.BreatheFactor | src/led_status.cpp:294-310 | the factor lies in [0.15, 1]. It is 1 for a zero period and 0.15 at the wave's trough |
| LedStatus.PartyHue | src/led_status.cpp:400-402 | the Party hue is in [0, 360) |
| LedStatus.OnPrice | src/led_status.cpp:312-386 | as written. An invalid price gives solid yellow, rendered, with no restart. A change of 20 or more enters Party with no render; the clock restarts only on entry. Otherwise: mode from magnitude, trend by hysteresis, base colour from trend, rendered; restart iff mode or base changed |
| LedStatus.PartyExit | src/led_status.cpp:336-361 | as written, +25 enters Party, but +16 already leaves it (for BreatheFast) |
| LedStatus.OnPriceIntended | src/led_status.cpp:323-342 | Party with a change in [15, 20) stays as it is, unrendered. Everything else is as `OnPrice` |
| LedStatus.PartyHysteresis | src/led_status.cpp:323-342 | with the intended exit, Party after a valid change iff change >= 20, or Party was on and change >= 15 |
| LedStatus.PartyEnterRemainExit | src/led_status.cpp:323-342 | with the intended exit: +25 enters, +16 remains, +14 leaves |
| LedStatus.AnimFrame | src/led_status.cpp:389-421 | nothing when the app is not running. Otherwise yellow at factor 1 for an invalid price, the rainbow for Party and the base for Solid. For the two breathing modes it is the base colour at `BreatheFactor` of the mode's period (900 ms fast, 2400 ms slow). Every factor lies in [0.15, 1] |
| LedStatus.ClampHz | src/led_status.cpp:472-474 | the animation rate is clamped to 5..60 Hz, unchanged when inside (the task repeats the same clamp) |
| LedStatus.Scaled | src/led_status.cpp:160-185 | no pixel: nothing changes. Otherwise the logical colour is recorded, and the physical colour is written and cached unless its pack equals the cache and went out under 1500 ms ago. At most one write is appended and earlier writes are kept; the board stamp is untouched |
| LedStatus.ScaledDeduplicates | src/led_status.cpp:177-184 | setting the same colour twice at the same moment is setting it once |
| LedStatus.ScaledCacheIsShown | src/led_status.cpp:177-207 | after `setLedScaled` the cache re-asserts exactly the colour on the bus, written now or earlier |
| LedStatus.Serviced | src/led_status.cpp:187-212 | the board pixel is forced off iff it exists and 2000 ms have passed. The cached colour is re-sent iff the pixel exists, master is on and 1500 ms have passed. Each stamp moves iff its write happens; logical colour and cache are kept |
| LedStatus.ServiceIdempotent | src/led_status.cpp:187-212 | servicing twice at the same moment is servicing once |
| LedStatus.RenderFactor | src/led_status.cpp:378-384 | the factor of the immediate render lies in [0.15, 1] and is 1 for a solid colour |
| LedStatus.AnimUpdated | src/led_status.cpp:389-421 | not running: nothing changes. Otherwise the result is `Scaled` with `AnimFrame`'s colour and factor. At most one write is appended and earlier writes are kept |
| LedStatus.TaskTicked | src/led_status.cpp:445-453 | a task tick appends at most three writes (board off, re-assert, frame) and keeps every earlier write |
| LedStatus.TaskTickCachesFrame | src/led_status.cpp:445-453 | with the application running, a task tick leaves the frame it drew in the cache, so the next re-assert repeats it |
| LedStatus.Led.constructor | src/led_status.cpp:53-107 | the statics' initial values: master 0.5, the empty-cache sentinel, Neutral/Solid/gray, 30 Hz |
| LedStatus.Led.Begin | src/led_status.cpp:111-135 | each strip is created and cleared once only, and the write cache and animation clock are reset |
| LedStatus.Led.SetMasterBrightness | src/led_status.cpp:137-141 | stores the clamped level |
| LedStatus.Led.SetScaled | src/led_status.cpp:160-185 | the new logical colour, cache, stamps and writes are exactly `Scaled` of the old ones |
| LedStatus.Led.WriteDeduplicated | src/led_status.cpp:177-184 | the de-duplication half of `setLedScaled`: skip or write and update the cache |
| LedStatus.Led.SetLed | src/led_status.cpp:214-216 | the new logical colour, cache, stamps and writes are `Scaled` of the old ones at factor 1, skip case included |
| LedStatus.Led.Service | src/led_status.cpp:187-212 | the new writes and both stamps are exactly `Serviced` of the old ones; logical colour and cache are kept |
| LedStatus.Led.FadeTo | src/led_status.cpp:218-250 | writes the fade frames from the logical colour. Then the target is logical and its scaled pack is cached |
| LedStatus.Led.PlayFade | src/led_status.cpp:225-239 | the frame loop writes exactly `FadeWrites` |
| LedStatus.Led.UpdateForPrice | src/led_status.cpp:312-386 | as written: trend, mode and base become `OnPrice`'s, so Party at +16% goes to BreatheFast. The clock restarts exactly when `OnPrice` says. When it renders, the write state is `Scaled` with the base colour at `RenderFactor`; otherwise it is unchanged |
| LedStatus.Led.AnimUpdate | src/led_status.cpp:389-421 | the new write state is exactly `AnimUpdated` of the old one: unchanged when not running, else the selected frame through `Scaled`, skip case included |
| LedStatus.Led.AnimLoop | src/led_status.cpp:423-441 | publishes the context. With the task running the write state becomes `Serviced`. Otherwise it is unchanged within 33 ms of the last frame; after that the stamp is now and the state is `AnimUpdated` |
| LedStatus.Led.TaskTick | src/led_status.cpp:445-453 | the new write state is exactly `TaskTicked` of the old one, from the published context |
| LedStatus.Led.StartTask | src/led_status.cpp:468-481 | starts once only, with the rate clamped to 5..60 and a core above 1 replaced by 0. The task counts as running iff it already was or its creation succeeds, so a failed creation leaves the main loop animating and a later call retries |
| Host.Mask | src/main.cpp:75 | `0x80 >> bit` is never zero |
| Host.PixelOn | src/main.cpp:137-141 | a cleared byte shows no pixel and a full byte shows every pixel |
| Host.MasksDisjoint | src/main.cpp:73-75 | masks of different bits share no bit |
| Host.WriteBit | src/main.cpp:77-81 | the chosen bit reads back the value written; the other seven bits are unchanged |
| Host.SetOrClear | src/main.cpp:75-81 | the C mask code computes `WriteBit` |
| Host.WriteRow | src/main.cpp:69-82 | after a write the pixel reads back the value; every other pixel of the row is unchanged |
| Host.Lcd.Row | src/main.cpp:35 | a buffer row has 4 bytes |
| Host.Lcd.constructor | src/main.cpp:35-36 | the buffers start cleared |
| Host.Lcd.SetMatrix | src/main.cpp:69-82 | off-screen coordinates are ignored. Otherwise the row becomes `WriteRow` of the old row and other rows are unchanged |
| Host.Lcd.SetIcon | src/main.cpp:84-88 | an icon index of 8 or more is ignored; otherwise exactly that flag is set |
| Host.ButtonStates | src/main.cpp:98-105 | button i is reported pressed iff it is the current button, so at most one is; none for -1 |
| Host.InputStep | src/main.cpp:199-220 | a switch press wins over rotation as MIDDLE. Positive steps give RIGHT and negative give LEFT, each stamping the time. Without an event the button is cleared iff more than 50 ms passed. The switch level is remembered |
| Host.PressClearedAfterDebounce | src/main.cpp:218-220 | a button held exactly 50 ms is still shown and is cleared 1 ms later |
| Host.Buttons.constructor | src/main.cpp:43-44 | no button, time 0, switch released |
| Host.Buttons.Handler | src/main.cpp:98-105 | reports the button states and returns 0 |
| Host.Buttons.UpdateInput | src/main.cpp:184-221 | within 50 ms of the last button event nothing happens, the cell included. Otherwise the cell is drained and the state advances by `InputStep` |
| TimeSetup.ClampValue | src/time_setup.cpp:152-156 | the result is within the bounds, equals the value inside them, and the nearer bound outside |
| TimeSetup.ClampIdempotent | src/time_setup.cpp:152-156 | clamping twice is clamping once |
| TimeSetup.Lo | src/time_setup.cpp:45-49 | each lower bound is non-negative and at most the field's default |
| TimeSetup.FieldIndex | src/time_setup.h:23-31 | the six fields have indices 0..5 |
| TimeSetup.FieldAt | src/time_setup.h:23-31 | the field at an index has that index |
| TimeSetup.NextField | src/time_setup.cpp:67 | `(field + 1) % FIELD_COUNT`: the next index, CONFIRM wrapping to YEAR |
| TimeSetup.FieldOrder | src/time_setup.cpp:67 | presses walk YEAR, MONTH, DAY, HOUR, MINUTE, CONFIRM |
| TimeSetup.Hi | src/time_setup.cpp:45-49 | each upper bound lies above its lower bound and at or above the field's default |
| TimeSetup.Adjust | src/time_setup.cpp:43-53 | rotation moves only the selected field, clamped to its bounds; CONFIRM ignores it. In-range values stay in range, and zero steps change nothing |
| TimeSetup.Iterate | src/time_setup.cpp:42-70 | confirms iff pressed on CONFIRM, setting the clock to the fields with second 0. Otherwise it adjusts, and a press moves to the next field. Fields stay in range |
| TimeSetup.Step | src/time_setup.cpp:32-70 | one loop iteration keeps the fields in range, and any confirmed clock is in range with second 0 |
| TimeSetup.Run | src/time_setup.cpp:25-74 | along any run of iterations, the fields stay in range and a confirmed clock is in range with second 0 |
| TimeSetup.RunStep | src/time_setup.cpp:25-74 | a run is one step followed by the rest, unless that step confirms |
| TimeSetup.SixPressesConfirmDefaults | src/time_setup.cpp:14-70 | six presses without rotation confirm 2024-01-01 12:00:00 |
| TimeSetup.EditStep | src/time_setup.cpp:42-70 | the field switch and press handling compute `Iterate` |
| TimeSetup.RunSetup | src/time_setup.cpp:8-74 | the loop returns what `Run` gives from the defaults, with the decoder and step cell threaded through |
| TimeSetup.Iteration | src/time_setup.cpp:32-53 | poll, drain, edit: the result, decoder state and counter are `Step`'s, and the cell is left at 0 |
| AppState.Fresh | src/app_state.cpp:84-92 | reset stats are hunger 50, happiness 50, health 100, level 1, experience 0; the timestamps are kept |
| AppState.Tick | src/app_state.cpp:60-79 | hunger drops by one, stopping at 0. Happiness drops iff the new hunger is < 20, rises iff it is > 70, each within 0..100. Health drops iff the new hunger is < 10. Stats stay in 0..100 |
| AppState.HungerCountsDown | src/app_state.cpp:61-63 | after n updates hunger is max(hunger - n, 0) |
| AppState.TicksKeepRanges | src/app_state.cpp:60-79 | health never rises, and stats stay in range, over any number of updates |
| AppState.TicksLast | src/app_state.cpp:55-82 | n + 1 updates are n updates followed by one |
| AppState.NeglectedPet | src/app_state.cpp:55-82 | from 50 hunger and full health: health holds for 40 updates, drops on the 41st, and hunger is 0 after 50 |
| AppState.HealthKeptWhileFed | src/app_state.cpp:71-73 | while hunger stays at 10 or more, health is unchanged |
| AppState.App.constructor | src/app_state.cpp:41-50 | the initial pet, home mode, menu 0 |
| AppState.App.InitAppState | src/app_state.cpp:41-53 | resets the stats, home mode and menu index |
| AppState.App.ResetPetState | src/app_state.cpp:84-92 | resets the stats only |
| AppState.App.UpdatePetState | src/app_state.cpp:55-82 | nothing until 60000 ms have elapsed (wraparound-safe); then one `Tick` and a new stamp |
| SettingsStore.LegacyTicker | src/settings_store.cpp:14-21 | indices 0, 1, 2 give XRP, BTC, ETH; any other index gives the empty string |
| SettingsStore.KeyName | src/settings_store.cpp:29-62 | every key name is non-empty and within the store's 15-character limit |
| SettingsStore.KeyNamesDistinct | src/settings_store.cpp:29-62 | different settings use different key names |
| SettingsStore.GetInt | src/settings_store.cpp:29-30 | a missing key gives the default; an integer entry gives its value |
| SettingsStore.GetString | src/settings_store.cpp:38 | a missing key gives the default; a string entry gives its value |
| SettingsStore.ResolveCoin | src/settings_store.cpp:36-46 | the coin is never empty. A non-empty `coin` key wins, and an empty one gives BTC. Without it, a known legacy index gives its ticker, an unknown one BTC, and no key at all BTC |
| SettingsStore.NormalDtSize | src/settings_store.cpp:50-52 | the size is 0 or 1, kept when already 0 or 1 |
| SettingsStore.NormalTz | src/settings_store.cpp:54-57 | an out-of-range time zone becomes the default |
| SettingsStore.NormalCur | src/settings_store.cpp:61-64 | an out-of-range currency becomes USD |
| SettingsStore.Loaded | src/settings_store.cpp:23-69 | a load gives a non-empty coin and a size of 0 or 1, with zone and currency in range. A missing key keeps the caller's value for plain fields and gives the default for zone and currency |
| SettingsStore.LegacyMigration | src/settings_store.cpp:39-45 | a store holding only the legacy index loads its ticker, or BTC for an unknown index |
| SettingsStore.PutBytes | src/settings_store.cpp:77-90 | a put reports 4 bytes for an integer and the length for a string; 0 when it fails |
| SettingsStore.AfterSave | src/settings_store.cpp:71-99 | after a save the legacy index is gone unless its removal fails |
| SettingsStore.SaveKeepsOtherKeys | src/settings_store.cpp:71-99 | a save leaves every key it does not write, the WiFi credentials among them, as it was |
| SettingsStore.SaveOk | src/settings_store.cpp:76-91 | a save reports success iff no put fails and the ticker is non-empty |
| SettingsStore.Normalised | src/settings_store.cpp:45-65 | normalised settings have a non-empty coin and a size of 0 or 1 |
| SettingsStore.LoadAfterSave | src/settings_store.cpp:23-99 | load after a successful save gives the saved settings, normalised, whatever the store and the caller held before |
| SettingsStore.NormaliseIdempotent | src/settings_store.cpp:45-65 | normalising twice is normalising once |
| SettingsStore.LoadedWifi | src/settings_store.cpp:101-112 | missing credentials read as empty |
| SettingsStore.AfterSaveWifi | src/settings_store.cpp:114-124 | each credential that can be written holds the new value; other keys are unchanged |
| SettingsStore.AfterClearWifi | src/settings_store.cpp:126-136 | each credential that can be removed is gone; other keys are unchanged |
| SettingsStore.WifiRoundTrip | src/settings_store.cpp:101-124 | credentials read back as they were saved |
| SettingsStore.WifiCleared | src/settings_store.cpp:101-136 | after a clear, the credentials read back empty |
| SettingsStore.Store.constructor | src/settings_store.cpp:12 | a namespace with given entries, openability and failing keys |
| SettingsStore.Store.ReadCoin | src/settings_store.cpp:36-46 | reads the coin exactly as `ResolveCoin` resolves it |
| SettingsStore.Store.Load | src/settings_store.cpp:23-69 | false with `out` untouched if the namespace cannot be opened; otherwise `Loaded` |
| SettingsStore.Store.Put | src/settings_store.cpp:77-90 | a put writes unless its key fails, and reports `PutBytes` |
| SettingsStore.Store.Remove | src/settings_store.cpp:93-95 | a removal succeeds iff its key does not fail |
| SettingsStore.Store.Save | src/settings_store.cpp:71-99 | false with no change if the namespace cannot be opened; otherwise entries `AfterSave` and result `SaveOk` |
| SettingsStore.Store.LoadWifi | src/settings_store.cpp:101-112 | false with the caller's strings untouched when the namespace cannot be opened; otherwise both credentials as stored, empty when missing |
| SettingsStore.Store.SaveWifi | src/settings_store.cpp:114-124 | stores both credentials. Success iff both puts write and neither string is empty |
| SettingsStore.Store.ClearWifi | src/settings_store.cpp:126-136 | removes each credential present. Success iff no present key fails to go |
| SettingsStore.Store.HasTzIndex | src/settings_store.cpp:138-146 | true iff the namespace opens and holds a time zone |
| Ui.ClockFace | src/ui.cpp:89-103 | 24-hour mode shows the hour with no AM/PM. 12-hour mode shows 1..12, "PM" iff hour >= 12 and "AM" iff hour < 12 |
| Ui.FromTwelveHour | src/ui.cpp:96-100 | a PM face reads back as 12..23, an AM face as 0..11 |
| Ui.TwelveHourRoundTrip | src/ui.cpp:96-100 | the 12-hour face loses nothing: every hour reads back |
| Ui.MidnightAndNoon | src/ui.cpp:96-100 | 0 shows 12 AM, 12 shows 12 PM, 23 shows 11 PM |
| Ui.Digits | src/ui.cpp:370 | the digit count d of n satisfies 10^(d-1) <= n < 10^d |
| Ui.IntDigits | src/ui.cpp:366-371 | a price below 1 counts one integer digit; otherwise the digits of its integer part |
| Ui.FirstFit | src/ui.cpp:375-387 | the result is 0 or a candidate that fits, and no earlier candidate fits |
| Ui.DetectDecimalPlaces | src/ui.cpp:363-387 | the loop over 4, 2, 0 returns `FirstFit` |
| Ui.DecimalsChosen | src/ui.cpp:375-387 | the result is 0, 2 or 4, at most `maxDecimals` when that is >= 0, and fits in 10 characters. It is 4 when 4 fits, and at least 2 when 2 fits |
| Ui.SmallPriceFourDecimals | src/ui.cpp:366-383 | a price below 1 with four decimals allowed shows four |
| Ui.TenDigitsNoDecimals | src/ui.cpp:375-387 | ten integer digits leave no room for decimals |
| Ui.LargeContentYOffset | src/ui.cpp:32-34 | the offset is 8 iff the size setting is 1, else 0 |
| Ui.SeqMin | src/ui.cpp:484-488 | the minimum is at most every value and is one of them |
| Ui.SeqMax | src/ui.cpp:484-488 | the maximum is at least every value and is one of them |
| Ui.RangeOf | src/ui.cpp:473-499 | no chart with fewer than 4 samples. Otherwise lo < hi, and every sample and the shown reference lie within [lo, hi] |
| Ui.RangeIsTight | src/ui.cpp:483-499 | lo is a plotted value. hi is one too, unless all values are equal and hi = lo + 1 |
| Ui.ScanExtremes | src/ui.cpp:483-489 | the scan over the samples returns their least and greatest value |
| Ui.ScanRange | src/ui.cpp:473-499 | the min/max scan and the widening compute `RangeOf` |
| Ui.DayAvgRow | src/ui.cpp:504-510 | the previous-day row lies within the chart. It is the bottom at or below the range and the top at or above it |
| Ui.DashesWithin | src/ui.cpp:513-523 | every dash lies within [xStart, xEnd], is non-empty and at most 4 pixels long |
| Ui.Dashes | src/ui.cpp:513-523 | no dash iff the span is empty |
| Ui.DashCount | src/ui.cpp:513-523 | the line has ceil((xEnd - xStart) / 8) dashes |
| Ui.DashesSpaced | src/ui.cpp:513-523 | consecutive dashes are exactly one 4-pixel gap apart |
| Ui.DrawDashes | src/ui.cpp:513-523 | the drawing loop draws exactly `Dashes` |

## Left out

- Floating point: `float` and `double` are modelled as exact reals, without rounding. The effects of `(uint8_t)` truncation on a rounded float and of `int()` on the chart row are modelled on reals.
- The breathing sine and the HSV colour wheel are taken as given. `wave` stands for `(sin(2π·phase/period) + 1)/2` in [0, 1], and `rainbow` for `hsvToRgb` of the Party hue. `hsvToRgb` is not part of this model.
- LedStatus.BreathePhase: the model states only that the phase lies within the period. Whether epoch or boot time is used depends on the wall clock, which is an input here.
- Time and inputs: `millis()`, the wall clock, `digitalRead` of the switch and the pulse counter's edges are parameters. Serial logging, the debug prints and `delay` are left out.
- Concurrency: the show mutex, the critical sections around the step cell and the FreeRTOS task are modelled as atomic steps. The task's infinite loop is modelled by `TaskTick`, one iteration at a time, and its tick period is not modelled.
- Encoder.Decoder.Count: the 16-bit hardware counter's own limits and its glitch filter configuration (`encoderPcntBegin`'s PCNT setup) are not modelled.
- TimeSetup.RunSetup: the source loops forever until CONFIRM. The model runs a finite sequence of iterations and returns the editor state if the sequence ends first. The 50 ms debounce and the wait for switch release are left out; a press is one iteration's input. Drawing the setup screen is left out.
- SettingsStore.Store: one `openable` flag stands for both the read-only open of the loads and the read-write open of the saves. A namespace that a read-only open refuses but a read-write open creates, as on a fresh device, is not modelled.
- SettingsStore: the storage library's type checking is modelled as integer and string values. A put of an empty string reports 0 bytes written, following the library's byte-count result. `TIMEZONE_COUNT`, `DEFAULT_TIMEZONE_INDEX`, `CURR_USD` and `CURR_COUNT` come from a configuration header that is not part of this model, and are parameters (`Limits`).
- Host: the screen and button constants (32×16 pixels, 8 icons, buttons 0/1/2) come from the emulator library, which is not part of this model. The emulator itself, the screen rendering, `setup`, `loop`, the auto-save and the pet save/load are left out.
- All e-paper drawing, fonts and `strftime` formatting in `ui.cpp` are display I/O and are left out. So are the RTC, battery and save-state modules.
- Ui.IntDigits: uses the digit count of the integer part in place of `floor(log10(price)) + 1`; floating-point error in `log10` near powers of ten is not modelled.
- The trend sequence +0.03, +0.001, -0.03 gives Up, Neutral, Down in the code: 0.001 is below the exit threshold 0.005. `TrendSequence` follows the code.

## Findings

| source | as written | input that shows it | evidently intended | confidence | as-written member | corrected member |
|---|---|---|---|---|---|---|
| src/led_status.cpp:336-375 | The Party exit test only matters below +15%. For any valid change below +20%, the mode is then overwritten from the magnitude, so Party is left at once | Party on, change = +16%: mode becomes BreatheFast | Party remains until the change falls below +15% (the exit threshold and its comment), giving hysteresis between 15 and 20 | medium; not executed | LedStatus.OnPrice, LedStatus.PartyExit | LedStatus.OnPriceIntended, LedStatus.PartyHysteresis |
