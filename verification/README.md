# HID key-code gesture classifier

This is a Dafny model of the gesture classifier of the ioBroker `hid` adapter (`main.js`). The adapter gets a
stream of key-code reports from a USB HID device, such as an IR remote receiver. Each report is the
report's bytes as upper-case hex. The device never says that a key was released, so the adapter
uses two restartable one-shot timers to infer releases and classify gestures:

- a debounce timer, `keyUpTimeout` ms long, that counts as the key-up;
- a window timer, twice as long, that separates a single click from a double click.

Its outputs are writes to device channels:

- the `raw…` channels get the code itself;
- the `key…` channels get the code's name from the mapping table;
- the suffix says what happened: down/repeat/up actions, a repeat count, and single, double and long classifications.

The model has two layers.

- `Gesture` (gesture.dfy) is the state machine over values. A `Machine` holds:
  - the `last` record (`data`, `cnt`, `keyup`);
  - the two timer slots, each empty or holding the argument captured at scheduling time and the delay;
  - the log of every `dev.set`, oldest first.

  `UpEvent`, `OnData`, `FireDown` and `FireUp` are the two handlers and the two timer callbacks. `Step` and `Run` apply a
  sequence of events: a report, or the firing of a timer whose slot is occupied. Wall-clock time is
  replaced by the environment choosing when an occupied slot fires.
- `Classification.Classifier` (classification.dfy) is the same classifier as the adapter runs it:
  - fields updated in place;
  - two `Timers.Timer` objects (timers.dfy) whose slots `Set`, `Clear` and `Fire` update;
  - a log that `Set`/`SetDsl` append to.

  Each method follows the statements of `main.js` in order and is proved to leave exactly the state
  the matching `Gesture` function describes.

Around these:

- `Channels` (channels.dfy) holds the channel-suffix table and the two writers `set`/`setDSL`.
- `Numbers` (numbers.dfy) holds `normalizeConfig`: JavaScript `parseInt` followed by `| 0`. It also holds the
  decimal rendering of the repeat count.
- `Runs` (runs.dfy) and `Scenarios` (scenarios.dfy) state what sequences of events report.
- `Discovery` (discovery.dfy) is the de-duplication loop of the `discovery` command.

The model states the following behaviours of the code as they are, each proved:

- The long press is reported on the fourth identical report. The count starts at 0 on the first report
  of a code, a repeat adds 1, and the long fires when the count reaches 3 (main.js:224-228;
  `Runs.PressAndHold`, `Scenarios.LongPress`).
- A key-up timeout of 0 only stops the debounce timer from being scheduled (main.js:218-222;
  `Runs.ZeroTimeoutNeverDebounces`). A held key is then released only by the next different report.
  Repeats, long presses, up actions and single clicks still happen. A double click never does, from
  start-up, as long as every report is non-empty (`Runs.ZeroTimeoutNoDoubles`): the released code is
  never the code released last. An empty report does release the held key, so `a, '', a, ''` reports one double.
- There is one window timer for all codes (main.js:178-187, 201). Releasing another key while a single is
  pending restarts the window for the new key, and the first key's single is never reported
  (`Scenarios.OtherKeyTakesOverWindow`).
- `raw-dsl` gets `code + "." + kind`. `key-dsl` gets the name that the mapping table gives for that
  composed string `code + "." + kind`, and is not written when it has none. It is not the code's mapped
  name followed by the kind, which is what the channel's own label `name + .single, .double or .long`
  (main.js:117) reads as (`Channels.SetDsl`).
- The code's statement order has further effects, also modelled as written:
  - on a key change, `upEvent` on the old code cancels the debounce timer that `onData` has just scheduled for
    the new code (`Gesture.OnData`);
  - after a long press, `keyup` stays set to the code and no window timer is pending to clear it, so
    the next short press of the same key is reported as a double click, however late it comes
    (`Scenarios.TapAfterLongPressIsDouble`);
  - the single-click callback tests the count when it fires, not when it was scheduled (`Gesture.FireUp`);
  - a mapping counts as present only when it is a non-empty string (JavaScript truthiness);
  - the dsl kind of a single click is `single-short`, from dropping the first character of
    `-single-short` (`Channels.DslValues`).

## Model

| member | source | states |
|---|---|---|
| Timers.Timer.constructor | main.js:176-180 | a new timer has nothing pending |
| Timers.Timer.Set | main.js:181-187 | after `set` exactly one callback is pending, carrying the argument and delay just given; any earlier one is gone |
| Timers.Timer.Clear | main.js:188-191 | after `clear` nothing is pending, whether or not something was (so clearing twice is clearing once) |
| Timers.Timer.Fire | main.js:183-185 | firing empties the slot before the callback runs and hands it the argument captured by the last `set` |
| Channels.Set | main.js:144-152 | `raw+name := val+ext` is always written first; a second write `key+name := mappings[val]+ext` happens if and only if `val` has a non-empty mapping |
| Channels.SetDsl | main.js:154-157 | the writes of `set(name, val)`, then `raw-dsl := val + "." + kind` where `kind` is `name` without its first character, then `key-dsl := mappings[val + "." + kind]` exactly when that composed string has a non-empty mapping; nothing else |
| Channels.DslValues | main.js:154-157 | the `raw-dsl` value of a double, a single and a long of `code` is `code.double`, `code.single-short` and `code.long` |
| Channels.SetChannels | main.js:144-152 | a `set` on `name` writes the raw channel `raw+other` once if `other == name` and never otherwise |
| Channels.SetDslChannels | main.js:154-157 | a `setDSL` on `name` reaches any raw channel other than `raw-dsl` once if it is `raw+name`, never otherwise |
| Numbers.DecimalString | main.js:239 | the rendering of the count is a non-empty digit string, without a leading zero, whose decimal value is the count |
| Numbers.TrimStart | main.js:245 | `parseInt` skips exactly the leading white space: what remains is a suffix that starts with no white space |
| Numbers.DigitRun | main.js:245 | the digits read are the longest prefix made of digits of the radix |
| Numbers.ParseUnsigned | main.js:245 | the result is NaN exactly when no digit of the radix (16 after `0x`/`0X`, else 10) follows |
| Numbers.ParseInt | main.js:245 | after white space and an optional sign, NaN exactly when the unsigned part is NaN; a number after `-` is at most 0 and otherwise at least 0 |
| Numbers.ToInt32 | main.js:245 | `\| 0` gives a signed 32-bit value congruent to its input modulo 2^32, the input itself when in range |
| Numbers.NormalizeTimeout | main.js:244-246 | the normalized timeout is a 32-bit integer: 0 for unparseable text, otherwise `parseInt`'s value reduced by `ToInt32`, which is that value when it fits |
| Numbers.ReadDecimal | main.js:245 | decimal digits followed by text that is neither a digit nor an `x` read as their decimal value; trailing text is ignored |
| Numbers.ReadHex | main.js:245 | `0x` or `0X` followed by hex digits reads them in radix 16, up to the first non-hex character |
| Numbers.SignedValue | main.js:245 | the sign step: `-` negates the unsigned value that follows, `+` or no sign keeps it |
| Numbers.ReadSigned | main.js:245 | leading white space is skipped and the sign applied to whatever unsigned value follows |
| Numbers.ParseDecimal | main.js:245 | `parseInt` of white space, an optional sign, the decimal rendering of `n` and trailing text is `n` or `-n` |
| Numbers.NormalizeRead | main.js:244-246 | white space, an optional sign and an unsigned number `v` normalize to `ToInt32` of `v` or `-v` |
| Numbers.NormalizeDecimal | main.js:244-246 | a decimal timeout, with white space, sign and trailing text, normalizes to its signed value reduced by `ToInt32`, and to the value itself below 2^31 |
| Numbers.NormalizeHex | main.js:244-246 | a `0x` timeout, with white space and sign, normalizes to its signed hex value reduced by `ToInt32` |
| Numbers.WrapExamples | main.js:245 | `\| 0` wraps: 4294967396 becomes 100 and 3000000000 becomes -1294967296 |
| Numbers.NoDigitsIsZero | main.js:245 | text with neither a digit nor a sign where the number starts normalizes to 0 |
| Gesture.UpEvent | main.js:196-214 | with an empty code nothing changes and nothing is written; otherwise the debounce slot is emptied, `action = code.up` is written, a double is written (window cancelled, `keyup` cleared) exactly when `cnt <= 2` and `keyup == code`, otherwise `keyup` becomes `code` and the window is pending for `code` when `cnt <= 2`; `data` and `cnt` end at `''` and 0 |
| Gesture.OnData | main.js:216-242 | the log only grows; a repeat raises `cnt` by exactly 1 and cancels the window when it reaches 3; the debounce slot holds the sample whenever the timeout is non-zero, except that a key change releases the old code and so empties it; a new code is always recorded in `data` |
| Gesture.RepeatWrites | main.js:224-240 | an identical report writes a long (only when the count becomes 3), then `action = code.repeat`, then `repcnt = code.cnt` exactly when the count is above 1 |
| Gesture.KeyChangeWrites | main.js:231-237 | a new code while another is held writes, in order: the old code's up action and possible double, the new code on the base channel, then `action = code.down` |
| Gesture.PressWrites | main.js:231-240 | a new code from idle writes the base channel, then `action = code.down`, then the repeat count if above 1 |
| Gesture.FireDown | main.js:219-221 | the debounce callback empties its slot and then releases the captured sample as `upEvent` does: idle `data` and count, the up action and possible double written, `keyup` cleared on a double and set to the code otherwise, the window cancelled on a double and restarted for the code when `cnt <= 2` |
| Gesture.FireUp | main.js:201-204 | the window callback empties its slot, writes a single for the captured code exactly when `cnt <= 2` at that moment, and always clears `keyup` |
| Gesture.Step | main.js:216-242 | one event only appends to the log |
| Gesture.Run | main.js:216-242 | a run of events only appends to the log |
| Classification.Classifier.constructor | main.js:83-87 | start-up: `last` is empty, both timers idle, the log empty, the timeout normalized from its setting |
| Classification.Classifier.Set | main.js:144-152 | the in-place `set` appends exactly the writes of `Channels.Set` |
| Classification.Classifier.SetDsl | main.js:154-157 | the in-place `setDSL` appends exactly the writes of `Channels.SetDsl` |
| Classification.Classifier.UpEvent | main.js:196-214 | the in-place `upEvent` leaves the fields, timers and log as `Gesture.UpEvent` describes |
| Classification.Classifier.OnData | main.js:216-240 | the in-place `onData` leaves the fields, timers and log as `Gesture.OnData` describes |
| Classification.Classifier.FireDownTimer | main.js:219-221 | the debounce callback as run by its timer leaves the state `Gesture.FireDown` describes |
| Classification.Classifier.FireUpTimer | main.js:201-204 | the window callback as run by its timer leaves the state `Gesture.FireUp` describes |
| Runs.OnDataReported | main.js:216-242 | one report adds a long exactly when a repeat brings the count to 3, a double exactly when a key change releases a code that completes one, and never a single |
| Runs.RepeatReported | main.js:224-230 | an identical report adds a long exactly when the count becomes 3, and no single or double |
| Runs.KeyChangeReported | main.js:231-235 | a key change adds a double exactly when the released code completes one, and no single or long |
| Runs.PressFromIdleReported | main.js:231-235 | a new code from idle reports no click |
| Runs.UpEventReported | main.js:196-214 | `upEvent` adds a double exactly when the code is non-empty and completes one, and no single or long |
| Runs.FireUpReported | main.js:201-204 | the window callback adds a single exactly when `cnt <= 2` when it fires, and no double or long |
| Runs.StepReported | main.js:201-242 | each event adds exactly the clicks `StepAdds` names: longs only on the third repeat, doubles only on a completing release, singles only from the window callback |
| Runs.RunAppend | main.js:216-242 | running two event sequences one after the other is running their concatenation |
| Runs.PressStep | main.js:218-235 | a new code from idle is recorded with the count unchanged and the debounce pending for it (when the timeout is non-zero) |
| Runs.RepeatStep | main.js:218-229 | an identical report raises the count by one, keeps `keyup`, cancels the window at 3, re-arms the debounce |
| Runs.DownFiresStep | main.js:196-221 | the debounce callback releases its code: idle state, double or restarted window as `upEvent` decides |
| Runs.UpFiresStep | main.js:201-204 | the window callback clears `keyup` and its own slot and nothing else of the state |
| Runs.RepeatStepReported | main.js:224-229 | one identical report raises the count by one and reports a long exactly when the count becomes 3 |
| Runs.HeldKey | main.js:224-229 | while a key is held the count rises by one per report, `keyup` is kept, the window is cancelled once the count reaches 3 and untouched after, and the debounce stays pending for the code |
| Runs.HeldKeyReported | main.js:224-229 | holding a key reports exactly one long press, on the report that brings the count to 3, and no single or double |
| Runs.PressAndHold | main.js:216-240 | `n+1` identical reports from idle leave the count at `n` and report one long exactly when `n >= 3`, that is from the fourth report |
| Runs.UnbrokenRunAtMostOneLong | main.js:224-229 | an unbroken run of identical reports, even with window callbacks in between, reports at most one long press, and none if the count is already past 3 |
| Runs.ZeroTimeoutNeverDebounces | main.js:218-222 | with a timeout of 0 the debounce timer is never scheduled, over any run |
| Runs.ZeroTimeoutStep | main.js:196-242 | with a timeout of 0 and a non-empty report, one event keeps `NoDoublePending` (no debounce pending, `keyup` never the held code) and reports no double |
| Runs.ZeroTimeoutRunNoDoubles | main.js:196-242 | with a timeout of 0 and non-empty reports, any run from a `NoDoublePending` state keeps it and adds no double |
| Runs.ZeroTimeoutNoDoubles | main.js:196-242 | with a timeout of 0 and non-empty reports, no double click is ever reported from start-up |
| Runs.RunKeepsIdleCountZero | main.js:212-235 | while reports are non-empty, an empty `data` always comes with a zero count |
| Runs.SetKnown | main.js:144-152 | `set` with a suffix from the table writes only channels the adapter created |
| Runs.SetDslKnown | main.js:154-157 | `setDSL` with a suffix from the table writes only created channels |
| Runs.UpEventKnown | main.js:196-214 | `upEvent` writes only created channels |
| Runs.OnDataKnown | main.js:216-242 | `onData` writes only created channels |
| Runs.StepKnown | main.js:201-242 | any event writes only created channels |
| Runs.RunWritesKnownChannels | main.js:103-138 | over any run, every write goes to one of the fourteen channels created from the suffix table |
| Scenarios.SingleClick | main.js:196-242 | press, repeat, debounce expiry, window expiry: one single click, no double or long, both timers idle |
| Scenarios.DoubleClick | main.js:196-214 | two taps within the window: one double, no single or long, the window cancelled |
| Scenarios.TapState | main.js:196-222 | a report from idle followed by the debounce expiry releases the code: a double (window cancelled, `keyup` cleared) when it was the code released last, otherwise the window pending for it and `keyup` set to it |
| Scenarios.TapReported | main.js:196-222 | such a tap reports a double exactly when the code was the one released last, and no single or long |
| Scenarios.LongPress | main.js:196-229 | four identical reports then expiry: one long, no single or double, no window pending, `keyup` still the code |
| Scenarios.ReleaseAfterLong | main.js:196-214 | the debounce expiry after a long press releases the key, reports no click and leaves `keyup` set to the code |
| Scenarios.TapAfterLongPressIsDouble | main.js:205-211 | after a long press a single tap of the same key reports a double |
| Scenarios.OtherKeyTakesOverWindow | main.js:201-204 | releasing another key while a single is pending restarts the one window for the new key; the first key's single is lost |
| Discovery.ToEntry | main.js:51-56 | an entry keeps the device's vendor and product ids, and takes its name from `product` and its manufacturer from `manufacturer` |
| Discovery.Discover | main.js:46-57 | the loop returns exactly the entries of the devices that are the first of their (vendorId, productId) pair, in input order |
| Discovery.ListedIffSeen | main.js:49-51 | a pair is listed in the result if and only if some input device has it |
| Discovery.FirstOccurrencesDistinct | main.js:49-51 | no two entries of the result share a (vendorId, productId) pair |
| Discovery.FirstOccurrencesIndices | main.js:47-57 | entry `k` comes from a device at increasing input positions, each the first with its pair |

## Left out

- The `node-hid` transport is foreign I/O and is not part of this model: opening the device, the `data` and `error` listeners, and `HID.devices()` (main.js:4, 258-277). Reports are taken as strings, and the device list of discovery as a sequence of records.
- Wall-clock time, `setTimeout` and `clearTimeout` are replaced by slots that the environment fires. Delays are recorded but do not order the callbacks, so any interleaving of reports and occupied-slot firings is allowed.
- The soef adapter lifecycle is framework glue and is left out: `soef.Adapter`, `onUnload`, `onUpdate`/`removeAllObjects`, `createAll`, `devices.CDevice`, `dev.createNew`, the `dev.update()` flush at the end of `onData`, `adapter.sendTo`, logging, and the command dispatch of `onMessage` around the discovery loop.
- The `stateNames` display names and descriptions (main.js:103-119) are text only. Just the fourteen channel names built from the suffix table are modelled.
- The commented-out `Timer` variant (main.js:159-174) is dead code.
- The vendor and product id checks of `main` (main.js:252-255) are left out. The timeout text and the mapping table that `main` reads from the host (main.js:250-251) are constructor parameters.
- Numbers.NormalizeTimeout: `parseInt` is modelled on exact integers. JavaScript numbers lose precision above 2^53, so a setting of more than 15 or 16 significant digits may truncate to a different 32-bit value in the adapter. Settings that are not strings are not modelled.
- Channels.Set: the mapping table is a map from strings to strings. A JavaScript object lookup can also find inherited properties and non-string values; those are not modelled.
- Gesture.OnData: the model accepts any report string. The adapter's reports are non-empty upper-case hex. `Runs.RunKeepsIdleCountZero` relies on reports being non-empty.
