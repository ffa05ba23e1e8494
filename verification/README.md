# daqhats-rs: continuous-scan orchestration, result decoding and the MCC 118 handle

daqhats-rs wraps the C driver for MCC DAQ HAT boards. This project models the
parts of it that carry logic of their own.

- **`Core`** (core.dfy, from src/core/mod.rs) covers the following:
  - turning a driver status code into `Result<(), ErrorCode>`;
  - the partial decoders `ErrorCode::from` and `HatId::from`;
  - error messages and their `Display`;
  - the `ScanOptions` and `ScanStatus` flag sets, with the status word and `from_bits`.

  The driver header's numeric constants are not shown in the source. They are therefore tables (`ResultCodes`, `HatIds`, `StatusBits`) whose `Valid` predicate says only that they are distinct and in range. Each status constant is also taken to be a single bit (see "Left out").
- **`Capability`** (capability.dfy) models the `AInScanner` trait as a device class, `Scanner`.
  - Its replies to start, read, stop and cleanup are fixed when it is built.
  - It keeps a log of every call made on it.
  - Once its scripted read replies are used up, every further read fails with `CommsFailure`.
- **`Worker`** (worker.dfy) states, as functions of the device's replies, what the acquisition worker of `scan_channels` leaves in the queues after `k` polls, and proves the delivery properties about them. The consumers' receiver drops are given per poll.
- **`Daqhats`** (daqhats.dfy, from src/lib.rs) covers `ScanOptions::channel_count`, the option translation and `scan_channels`.
  - The `mpsc` channels are a `Channels` object, with one queue and one "receiver held" flag per channel.
  - The worker's loop is a method over a heap-allocated read buffer.
  - Its step state (`AtPoll`) is tied to the `Worker` functions.
  - The join that hands the device back is `Join`.
- **`Mcc118Device`** (mcc118.dfy, from src/core/mcc118.rs) covers the MCC 118 handle.
  - Each wrapper records its driver call on a `Driver` object.
  - Each wrapper hands out the values the driver wrote only on success.
  - The status-word and channel-count checks can panic.
  - `Drop` tears down a running scan.
  - `close` issues the driver close itself. `Drop` then runs once on the consumed handle and closes a second time (`CloseClosesTwice`).

  A Rust panic is the outcome `Panicked`.

Values read from the board, sample rates and timeouts are IEEE doubles that
are only passed along, so they are kept as bit patterns (`Core.F64`).

## Model

| member | source | states |
|---|---|---|
| Core.Discriminant | src/core/mod.rs:43-53 | `e as i32` is the driver constant the variant is declared with; what is promised of these constants is stated by `ErrorCodeRoundTrip` and `ErrorCodeOnto` |
| Core.ErrorFromCode | src/core/mod.rs:55-69 | the variant returned has the given code as its discriminant; codes that are not listed are excluded, since they panic |
| Core.ErrorCodeRoundTrip | src/core/mod.rs:43-69 | with distinct constants, `ErrorCode::from(e as i32) == e` for every variant |
| Core.ErrorCodeOnto | src/core/mod.rs:55-69 | an error code is never the success code, and exactly one variant has it as its discriminant |
| Core.ResultCToRs | src/core/mod.rs:8-14 | `Ok(())` exactly when the code is success; otherwise the error whose discriminant is the code |
| Core.Message | src/core/mod.rs:80-91 | every variant has a message, a non-empty sentence ending in a full stop |
| Core.MessageLength | src/core/mod.rs:79-92 | gives the length of each variant's message |
| Core.MessagesDistinct | src/core/mod.rs:79-92 | `message` is never empty, and no two variants share a message |
| Core.LengthsDistinct | src/core/mod.rs:79-92 | no two variants' messages have the same length |
| Core.Display | src/core/mod.rs:71-75 | `daqhats error: ` followed by the message; what `fmt` promises is stated by `DisplayDeterminesError` |
| Core.DisplayDeterminesError | src/core/mod.rs:71-75 | the displayed text starts with `daqhats error: `, and the displayed text determines the error |
| Core.HatDiscriminant | src/core/mod.rs:17-26 | each board's discriminant is its driver constant; what is promised of these constants is stated by `HatIdRoundTrip` |
| Core.HatIdToU16 | src/core/mod.rs:17-26 | `h as u16` lies in 0..65536 |
| Core.HatIdFromU16 | src/core/mod.rs:28-41 | the variant returned has the given id as its discriminant; ids that are not listed are excluded, since they panic |
| Core.HatIdRoundTrip | src/core/mod.rs:28-41 | with distinct 16-bit constants, `HatId::from(h as u16) == h` for every board |
| Core.Contains | src/core/mod.rs:125-132 | `a.contains(b)` on flag sets; what bitflags promises of it (`a & b == b` on the words) is stated by `ContainsIsSubset` |
| Core.ToBits | src/core/mod.rs:125-132 | `bits()` sets the bit of every flag in the set, and only bits of the four flags; with distinct bit positions, a flag's bit is set only when the flag is |
| Core.FromBits | src/core/mod.rs:125-132 | `from_bits` fails exactly when the word has a bit outside the four status flags; what a successful result decodes to is stated by `StatusWordRoundTrip` |
| Core.StatusRoundTrip | src/core/mod.rs:125-132 | decoding the bits of any flag set gives the same set back |
| Core.StatusWordRoundTrip | src/core/mod.rs:125-132 | every word `from_bits` accepts is the bits of the set it decodes to |
| Core.ContainsIsSubset | src/core/mod.rs:125-132 | on accepted words, `contains` (`a & b == b`) holds exactly when the decoded flags of `b` are a subset of those of `a` |
| Capability.ReplyAt | src/core/mod.rs:197 | a read past the scripted replies is an error |
| Capability.Fill | src/core/mod.rs:197 | the buffer the device writes into keeps its length |
| Capability.Scanner.constructor | src/core/mod.rs:192-201 | a device with the given replies and an empty call log |
| Capability.Scanner.AInScanStart | src/core/mod.rs:194 | returns the scripted start result, logs the call with its arguments, and uses no read reply |
| Capability.Scanner.AInScanRead | src/core/mod.rs:197 | returns the next reply's result; the buffer is that reply's values over the old contents; moves to the next reply; logs the call |
| Capability.Scanner.AInScanStop | src/core/mod.rs:199 | returns the scripted stop result and logs the call |
| Capability.Scanner.AInScanCleanup | src/core/mod.rs:200 | returns the scripted cleanup result and logs the call |
| Worker.EndsLoop | src/lib.rs:52-72 | a reply lets the loop go on exactly when it is a successful read of at least one sample with RUNNING set and neither overrun set |
| Worker.PollDiagnostics | src/lib.rs:52-84 | a poll is reported exactly when it ends the loop; a read error is reported alone, with its error |
| Worker.TeardownDiagnostics | src/lib.rs:88-94 | nothing is reported exactly when stop and cleanup both succeed; a failed stop is reported first, a failed cleanup last |
| Worker.GoodPolls | src/lib.rs:48-86 | the number of leading polls that do not end the loop; the next reply, if any, ends it |
| Worker.EndsAtGoodPolls | src/lib.rs:70-72 | a poll reached by the loop ends it exactly when it is poll `GoodPolls` |
| Worker.Hang | src/lib.rs:75 | dropping receivers keeps one flag per channel |
| Worker.LiveThrough | src/lib.rs:75 | the held receivers after the first `k` polls' drops, one flag per channel |
| Worker.FanOutFrom | src/lib.rs:74-79 | the fan-out of one frame keeps one queue per channel |
| Worker.FanOutFromAt | src/lib.rs:74-79 | queue `i` gets `frame[i]` exactly when every receiver from the start index up to `i` is held |
| Worker.FanOut | src/lib.rs:74-79 | one frame appends `frame[i]` to queue `i` exactly when receivers `0..i` are held, and leaves the queue alone otherwise |
| Worker.FanOutFromAll | src/lib.rs:74-79 | the fan-out from the first queue, queue by queue, as `FanOut` states it |
| Worker.BufferAfter | src/lib.rs:46-50 | the read buffer always holds one value per channel |
| Worker.QueuesAfter | src/lib.rs:48-86 | the queues after `k` polls, one per channel |
| Worker.QueueStep | src/lib.rs:74-79 | each poll appends at most one value to queue `i`, namely buffer slot `i` |
| Worker.LiveMonotone | src/lib.rs:75 | a dropped receiver stays dropped |
| Worker.FrozenAfterHangup | src/lib.rs:74-79 | once receiver `j` is gone, no queue at or above `j` receives anything more, however long polling goes on |
| Worker.Unreached | src/lib.rs:74-79 | a fan-out that finds receiver `j` gone adds nothing to queue `j` or any queue above it |
| Worker.Column | src/lib.rs:74-75 | one value per poll |
| Worker.FullFrame | src/lib.rs:50 | after a reply that wrote a whole frame, slot `i` of the buffer holds that frame's value `i` |
| Worker.QueueLengths | src/lib.rs:74-79 | with all receivers held through `k` polls, every queue has grown by exactly `k` values, whatever the replies wrote |
| Worker.DeliveryInOrder | src/lib.rs:74-79 | with all receivers held and whole frames, queue `i` receives exactly value `i` of each frame, in poll order |
| Worker.DeliveryStep | src/lib.rs:74-79 | a frame that reaches queue `i` appends its value `i` |
| Worker.ColumnStep | src/lib.rs:74-75 | the next poll's value `i` follows the earlier ones |
| Worker.HeldEarlier | src/lib.rs:75 | receivers all held after `k` polls were all held after any earlier poll |
| Worker.AllHeld | src/lib.rs:40-43 | receivers that start held and are never dropped stay held |
| Worker.FirstLoss | src/lib.rs:76 | the first lost fan-out lies within the polled range |
| Worker.HeldBeforeFirstLoss | src/lib.rs:76 | every fan-out before the first lost one finds all receivers held |
| Worker.FirstLossStep | src/lib.rs:76 | a poll reached without an earlier loss is the first loss exactly when it ends the range or loses a receiver |
| Worker.LossNoLaterThanHangup | src/lib.rs:76 | a worker that stops on a failed send stops no later than the poll after the first receiver drop |
| Daqhats.CountOnesBelow | src/lib.rs:18-20 | the number of set bits below bit `k` is at most `k` |
| Daqhats.CountOnesIsChannels | src/lib.rs:18-20 | counting set bits equals the number of channels whose bit is set |
| Daqhats.ChannelsBelowStep | src/lib.rs:18-20 | adding bit `k` adds channel `k` exactly when its bit is set |
| Daqhats.ChannelCount | src/lib.rs:18-20 | `channel_count` is the number of channels selected by the mask, at most 8 |
| Daqhats.LowLevelOptions | src/lib.rs:24-35 | always CONTINUOUS and never NOSCALEDATA; NOCALIBRATEDATA iff calibration is off; EXTCLOCK and EXTTRIGGER iff asked |
| Daqhats.ScaleDataIgnored | src/lib.rs:25 | `scale_data` makes no difference to the driver options |
| Daqhats.Channels.constructor | src/lib.rs:40-43 | `n` empty queues, all receivers held |
| Daqhats.Channels.Send | src/lib.rs:75 | a send succeeds exactly when the receiver is held, and then appends the value to that queue alone |
| Daqhats.Channels.DropReceivers | examples/mcc118_continuous.rs:40-41 | the consumers' drop releases exactly the named receivers and leaves every queue as it was |
| Daqhats.Reads | src/lib.rs:50 | `k` polls make `k` read calls |
| Daqhats.ReadsStep | src/lib.rs:50 | one more poll adds one read of one sample per channel, with timeout 0.0 |
| Daqhats.ScanChannels | src/lib.rs:23-45 | one start call with the caller's mask and rate, buffer size 0 and the translated options; a failed start is returned unchanged and creates no channels (dropping the device is not modelled; see "## Left out"); on success, `channel_count` empty held channels |
| Daqhats.Poll | src/lib.rs:50-85 | one read of one sample per channel with timeout 0.0; a reply that ends the loop sends nothing; otherwise the buffer is fanned out; `sendFailed` iff a receiver was gone |
| Daqhats.PollStep | src/lib.rs:48-86 | poll `k` ends the loop exactly when it is poll `GoodPolls`; otherwise the state is that of poll `k + 1` |
| Daqhats.PollUntilEnd | src/lib.rs:46-86 | the loop makes `GoodPolls + 1` reads and leaves the queues of `GoodPolls` fan-outs; dropped receivers do not end it |
| Daqhats.PollUntilHangup | src/lib.rs:76 | a loop that ends on a failed send makes `h + 1` reads, `h` being the first lost fan-out, or ends at `GoodPolls` |
| Daqhats.Teardown | src/lib.rs:88-94 | stop then cleanup, once each and whatever they return; failures are reported, not raised |
| Daqhats.Join | src/lib.rs:45-97 | the same device comes back; its log holds the reads, then stop and cleanup; the queues are those after `GoodPolls` fan-outs |
| Daqhats.JoinStoppingOnHangup | src/lib.rs:45-97 | as `Join`, but the loop stops at the first poll whose fan-out finds a receiver gone |
| Daqhats.DroppedReceiversKeepPolling | src/lib.rs:77 | with the only receiver dropped before the first poll, the worker as written reads 4 times over three good frames; the corrected one reads once |
| Daqhats.DroppedReceiverScan | src/lib.rs:23-100 | end to end on that input: the device as written sees start, 4 reads, stop, cleanup; with the corrected worker, start, 1 read, stop, cleanup |
| Daqhats.GoodPollsIs | src/lib.rs:48-86 | `GoodPolls` is the first reply that ends the loop |
| Daqhats.TwoChannelFrames | src/lib.rs:50 | reply `j` is the good frame `(a[j], b[j])` |
| Daqhats.TwoChannelOptions | src/lib.rs:18-35 | mask `0b11` counts two channels and translates to CONTINUOUS alone |
| Daqhats.TwoChannelGoodPolls | src/lib.rs:52-72 | every frame is forwarded and the overrun ends the loop |
| Daqhats.TwoChannelColumns | src/lib.rs:74-75 | channel 0 of the frames is `a`, channel 1 is `b` |
| Daqhats.TwoChannelQueue | src/lib.rs:74-79 | queue `i` receives channel `i` of every frame, in order |
| Daqhats.TwoChannelDelivery | src/lib.rs:74-79 | the two queues end as `[a, b]` |
| Daqhats.TwoChannelReport | src/lib.rs:57-68 | the last poll is reported as a buffer overrun and an empty read |
| Daqhats.ScanTwoChannels | src/lib.rs:23-100 | end to end: receiver 0 gets exactly `a`, receiver 1 exactly `b`; the device sees start, `|a| + 1` reads, stop, cleanup |
| Mcc118Device.Expose | src/core/mcc118.rs:35-38 | the out-parameter is handed out exactly on success; a listed code is its error; an unlisted code panics |
| Mcc118Device.DecodeScan | src/core/mcc118.rs:124-129 | panics on an unlisted code, or on success with a bit outside the four flags; on success the flags are exactly the word's bits |
| Mcc118Device.CheckChannelCount | src/core/mcc118.rs:149-155 | returns the count exactly when it is in 0..8, and panics otherwise |
| Mcc118Device.DropEffects | src/core/mcc118.rs:168-178 | the status query comes first; the call returns exactly when it reaches the close; a failed status query goes straight to the close |
| Mcc118Device.DropOrdered | src/core/mcc118.rs:168-178 | status, stop, cleanup and close come in that order, each at most once |
| Mcc118Device.DropStopsAndCleans | src/core/mcc118.rs:170-176 | stop iff the status says RUNNING; cleanup iff the status was read and any stop succeeded |
| Mcc118Device.DropReturns | src/core/mcc118.rs:170-177 | returns iff the status query failed with an error, or the needed stop and the cleanup succeeded; otherwise it panics before the close |
| Mcc118Device.CloseEffects | src/core/mcc118.rs:40-43 | `close` issues the driver close, then `Drop`'s calls; its result is the first close's |
| Mcc118Device.DropClosesOnce | src/core/mcc118.rs:168-178 | a `Drop` that returns closes the device exactly once |
| Mcc118Device.CloseClosesTwice | src/core/mcc118.rs:40-43 | a `close` that returns has closed the device twice |
| Mcc118Device.Driver.constructor | src/core/mod.rs:1 | a driver with the given constants and no calls yet |
| Mcc118Device.Mcc118.Open | src/core/mcc118.rs:35-38 | a handle exists exactly when the driver opened the board |
| Mcc118Device.Mcc118.IsOpen | src/core/mcc118.rs:45-50 | panics unless the driver answers 1 |
| Mcc118Device.Mcc118.AInRead | src/core/mcc118.rs:98-103 | the value the driver wrote is returned on success only |
| Mcc118Device.Mcc118.AInScanActualRate | src/core/mcc118.rs:107-111 | the rate the driver wrote is returned on success only |
| Mcc118Device.Mcc118.AInScanStart | src/core/mcc118.rs:113-116 | the arguments go to the driver unchanged; the result is the code's |
| Mcc118Device.Mcc118.AInScanBufferSize | src/core/mcc118.rs:118-122 | the size the driver wrote is returned on success only |
| Mcc118Device.Mcc118.AInScanStatus | src/core/mcc118.rs:124-129 | the status is decoded as `DecodeScan` states |
| Mcc118Device.Mcc118.AInScanRead | src/core/mcc118.rs:131-147 | the driver is told the buffer length as a `u32`; the buffer holds what it wrote; the status is decoded as `DecodeScan` states |
| Mcc118Device.Mcc118.AInScanChannelCount | src/core/mcc118.rs:149-155 | the count is checked as `CheckChannelCount` states |
| Mcc118Device.Mcc118.AInScanStop | src/core/mcc118.rs:157-160 | the result is the code's |
| Mcc118Device.Mcc118.AInScanCleanup | src/core/mcc118.rs:162-165 | the result is the code's |
| Mcc118Device.Mcc118.Drop | src/core/mcc118.rs:168-178 | makes exactly the calls, and ends as, `DropEffects` states |
| Mcc118Device.Mcc118.Close | src/core/mcc118.rs:40-43 | makes exactly the calls, and ends as, `CloseEffects` states |

## Left out

- Threads, `JoinHandle::join` and `mpsc` are sequential here.
  - The worker's body runs when it is joined.
  - Consumers act only between polls, by dropping the receivers named for that poll.
  - What they receive is the queue contents. Reads are not modelled, since they never affect the worker.
  - A panic in the worker thread is not modelled.
- The `eprintln!` messages are a ghost list of `Diagnostic` values.
- Floating point: samples, rates and timeouts are opaque bit patterns.
  - `a_in_scan_actual_rate`'s computation belongs to the driver.
  - The timeout is passed as `0.0`, as the code does, although the comment at src/lib.rs:49 says "infinite timeout".
- Daqhats.ScanChannels: the mask and the rate are not validated, because `scan_channels` leaves that to the driver.
- Daqhats.ScanChannels: `dev` is passed by reference, not moved. `scan_channels` takes the device by value (src/lib.rs:23), so it differs from the source in two ways:
  - When the start fails, the `?` at src/lib.rs:37 returns the error and drops the device. The caller cannot use that device again. For the MCC 118 that drop also runs `Drop` (src/core/mcc118.rs:168-178): a status query, a stop if the scan is running, cleanup, then close. The model captures neither the loss of the device nor those calls. It leaves the `Scanner` with the caller, unchanged apart from the logged start.
  - On success, the caller still holds a reference to the device while the worker owns it. The model does not prevent the caller from using that reference. Only the `JoinHandle` is meant to carry the device.
- Capability.Scanner covers only the trait methods `scan_channels` calls: start, read, stop and cleanup. `Mcc118Device.Mcc118` models all eight trait methods for the MCC 118.
- The driver's calls and constants are tables and parameters. Their numbers (`RESULT_*`, `HAT_ID_*`, `STATUS_*`, `OPTS_*`) are not part of this model.
- Core.StatusBits: the four `STATUS_*` constants are assumed to be distinct single bits of the 16-bit status word. This assumption is what makes `contains` a test of set membership and `from_bits` a set of flags, and `Worker.EndsLoop` relies on it.
- The option set `core::ScanOptions` is modelled as a set of flags, which likewise assumes the `OPTS_*` constants are distinct single bits. `DEFAULT` (which would be `OPTS_DEFAULT == 0`, the empty set) is not modelled, since nothing uses it. Encoding options to bits is the driver's job.
- Core.ResultCToRs: requires a known code. An unknown code panics inside `ErrorCode::from`, and in the handle wrappers that panic is modelled as `Panicked`.
- Core.ErrorFromCode: requires a listed code, because any other code panics.
- Core.HatIdFromU16: requires a listed id, because any other id panics.
- Mcc118Device.Mcc118.AInScanStart: requires `samplesPerChannel < 2^32`, the range of the `u32` parameter.
- Integer widths are otherwise unbounded.
  - Status words are bit-position sets with no 16-bit bound.
  - Sample counts are `nat`.
  - Channel counts and sizes are not wrapped. Only the buffer length passed to the driver is reduced modulo 2^32.
- Mcc118Device.Mcc118.Drop: a panic inside `Drop` while the stack is already unwinding (which aborts the process) is not distinguished from an ordinary panic.
- Mcc118Device.Mcc118.Close: the code returned by `Drop`'s own driver close is ignored, as in the source.
- The board utilities in src/core/mcc118.rs are single driver calls with no logic of their own, so they are not modelled:
  - `blink_led`, `firmware_version` and `serial`;
  - `calibration_date`, `calibration_coefficient_read` and `calibration_coefficient_write`;
  - `trigger_mode`, `info` and `Mcc118DeviceInfo`.
- Also not part of this model:
  - `hat_list`;
  - the interrupt callbacks;
  - `HatInfo::from`, a lossy UTF-8 conversion.
- src/core.rs and src/mcc118.rs are stale duplicates of src/core/mod.rs and src/core/mcc118.rs, and are not part of this model.
  - `pub mod core;` at src/lib.rs:1 names src/core.rs as much as src/core/mod.rs; this model follows src/core/mod.rs.
  - Both stale files import `crate::bindings`, which the crate root never declares.

## Findings

| source | as written | input that shows it | evidently intended | confidence | as-written member | corrected member |
|---|---|---|---|---|---|---|
| src/lib.rs:74-79 | the `break` on a failed send leaves only the `for`, so the loop keeps polling after every receiver is dropped, and `join` (examples/mcc118_continuous.rs:40-44) waits until the device stops delivering | one channel, its receiver dropped before the first poll, and a device with three good frames then an error: the worker reads 4 times and would read for as long as frames come | a failed send stops the worker, as the comment at src/lib.rs:76 says. The corrected member stops at the failed send itself, so queues above the dropped receiver miss that last frame. Trying the remaining channels of the frame first and then stopping would fit the comment too. | high; not executed | Daqhats.DroppedReceiversKeepPolling | Daqhats.JoinStoppingOnHangup |
