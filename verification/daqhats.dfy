/** The crate root (src/lib.rs): the high-level scan options and
    `scan_channels`, which starts a continuous scan, creates one queue per
    channel and hands the device to a worker that polls one frame at a time,
    fans each frame out to the queues, and stops and cleans up the scan before
    giving the device back.

    The worker runs on its own thread in the source. Here `ScanChannels` does
    what happens before the thread is spawned and `Join` runs the thread's body
    to its end and returns the device, as `JoinHandle::join` does; what the
    consumers do meanwhile is an input of `Join`: which receivers they drop
    before each poll. */
module Daqhats {
  import opened Core
  import opened Capability
  import opened Worker

  /** `daqhats::ScanOptions` (lib.rs:6-15). */
  datatype ScanOptions = ScanOptions(
    channelMask: bv8,
    sampleRatePerChannel: F64,
    scaleData: bool,
    calibrateData: bool,
    externalClock: bool,
    externalTrigger: bool)

  /** Bit `i` of the channel mask is set. */
  predicate HasChannel(mask: bv8, i: nat)
    requires i < 8
  {
    (mask >> i) & 1 == 1
  }

  /** The channels below `k` whose bit is set. */
  function ChannelsBelow(mask: bv8, k: nat): set<nat>
    requires k <= 8
  {
    set i: nat | i < k && HasChannel(mask, i)
  }

  /** The number of set bits of `mask` below bit `k`. */
  function CountOnesBelow(mask: bv8, k: nat): (r: nat)
    requires k <= 8
    ensures r <= k
  {
    if k == 0 then 0
    else CountOnesBelow(mask, k - 1) + (if HasChannel(mask, k - 1) then 1 else 0)
  }

  lemma {:induction false} CountOnesIsChannels(mask: bv8, k: nat)
    requires k <= 8
    ensures CountOnesBelow(mask, k) == |ChannelsBelow(mask, k)|
  {
    if k > 0 {
      CountOnesIsChannels(mask, k - 1);
      ChannelsBelowStep(mask, k - 1);
    }
  }

  lemma ChannelsBelowStep(mask: bv8, k: nat)
    requires k < 8
    ensures k !in ChannelsBelow(mask, k)
    ensures ChannelsBelow(mask, k + 1) == ChannelsBelow(mask, k) + if HasChannel(mask, k) then {k} else {}
  {
  }

  /** `ScanOptions::channel_count` (lib.rs:18-20): the number of channels whose
      bit is set in the mask, so at most 8. */
  function ChannelCount(opts: ScanOptions): (n: nat)
    ensures n == |ChannelsBelow(opts.channelMask, 8)|
    ensures n <= 8
  {
    CountOnesIsChannels(opts.channelMask, 8);
    CountOnesBelow(opts.channelMask, 8)
  }

  /** The driver options `scan_channels` builds (lib.rs:24-35): always
      CONTINUOUS; NOCALIBRATEDATA when calibration is off; EXTCLOCK and
      EXTTRIGGER as asked; never NOSCALEDATA, because the line that would add it
      is commented out. */
  function LowLevelOptions(opts: ScanOptions): (low: OptionSet)
    ensures Continuous in low
    ensures NoScaleData !in low
    ensures NoCalibrateData in low <==> !opts.calibrateData
    ensures ExtClock in low <==> opts.externalClock
    ensures ExtTrigger in low <==> opts.externalTrigger
  {
    {Continuous}
    + (if !opts.calibrateData then {NoCalibrateData} else {})
    + (if opts.externalClock then {ExtClock} else {})
    + (if opts.externalTrigger then {ExtTrigger} else {})
  }

  /** `scale_data` makes no difference to what the driver is asked for. */
  lemma ScaleDataIgnored(opts: ScanOptions)
    ensures LowLevelOptions(opts.(scaleData := true)) == LowLevelOptions(opts.(scaleData := false))
  {
  }

  /** The `mpsc` channels of one scan: `queues[i]` holds every value sent on
      channel `i`, in the order sent, and `connected[i]` says whether its
      receiver is still held. No capacity bound: a send succeeds exactly when
      the receiver is held. */
  class Channels {
    var queues: seq<seq<F64>>
    var connected: seq<bool>

    ghost predicate Valid()
      reads this
    {
      |queues| == |connected|
    }

    /** `n` fresh channels, all empty, all receivers held (lib.rs:40-43). */
    constructor (n: nat)
      ensures Valid()
      ensures queues == seq(n, _ => []) && connected == seq(n, _ => true)
    {
      queues := seq(n, _ => []);
      connected := seq(n, _ => true);
    }

    /** `senders[i].send(v)` */
    method Send(i: nat, v: F64) returns (sent: bool)
      requires Valid() && i < |queues|
      modifies this
      ensures Valid()
      ensures sent == old(connected[i])
      ensures connected == old(connected)
      ensures queues == if sent then old(queues)[i := old(queues[i]) + [v]] else old(queues)
    {
      sent := connected[i];
      if sent {
        queues := queues[i := queues[i] + [v]];
      }
    }

    /** The consumers drop the receivers of the channels in `gone`. */
    method DropReceivers(gone: set<nat>)
      requires Valid()
      modifies this
      ensures Valid()
      ensures queues == old(queues)
      ensures connected == Hang(old(connected), gone)
    {
      connected := Hang(connected, gone);
    }
  }

  /** The spawned worker: the device it owns, the sending side of the channels
      and the channel count it captured. */
  datatype JoinHandle = JoinHandle(device: Scanner, senders: Channels, channelCount: nat)

  /** The calls `k` polls make: one sample per channel, timeout 0.0, into a
      buffer of `n` values. */
  function Reads(k: nat, n: nat): (calls: seq<ScanCall>)
    ensures |calls| == k
  {
    seq(k, _ => Read(1, ZERO, n))
  }

  lemma ReadsStep(k: nat, n: nat)
    ensures Reads(k + 1, n) == Reads(k, n) + [Read(1, ZERO, n)]
  {
  }

  /** `scan_channels` up to the spawn (lib.rs:23-45, 99): translate the options,
      start the scan with the caller's mask and rate and a zero buffer size, and
      on success create one channel per set bit of the mask. A failed start is
      returned unchanged and creates nothing. The mask and rate are not
      checked here; that is left to the driver. */
  method ScanChannels(dev: Scanner, opts: ScanOptions) returns (r: Result<(JoinHandle, Channels)>)
    modifies dev
    ensures dev.next == old(dev.next)
    ensures dev.calls == old(dev.calls) + [Start(opts.channelMask, 0, opts.sampleRatePerChannel, LowLevelOptions(opts))]
    ensures r.Err? <==> dev.startResult.Err?
    ensures r.Err? ==> r.error == dev.startResult.error
    ensures r.Ok? ==>
      var (handle, receivers) := r.value;
      && fresh(receivers) && receivers.Valid()
      && receivers.queues == seq(ChannelCount(opts), _ => [])
      && receivers.connected == seq(ChannelCount(opts), _ => true)
      && handle == JoinHandle(dev, receivers, ChannelCount(opts))
  {
    var lowOpts: OptionSet := {Continuous};
    // NOSCALEDATA is never added: lib.rs:25 has that line commented out.
    if !opts.calibrateData {
      lowOpts := lowOpts + {NoCalibrateData};
    }
    if opts.externalClock {
      lowOpts := lowOpts + {ExtClock};
    }
    if opts.externalTrigger {
      lowOpts := lowOpts + {ExtTrigger};
    }
    assert lowOpts == LowLevelOptions(opts);

    var started := dev.AInScanStart(opts.channelMask, 0, opts.sampleRatePerChannel, lowOpts);
    if started.Err? {
      return Err(started.error);
    }

    var nCh := ChannelCount(opts);
    var channels := new Channels(nCh);
    r := Ok((JoinHandle(dev, channels, nCh), channels));
  }

  /** One turn of the worker's loop (lib.rs:50-85): read one sample per
      channel with timeout 0.0 into `readBuf`, and unless the reply ends the
      loop, send slot `i` of the buffer on channel `i` for `i = 0, 1, ...`,
      leaving the `for` at the first send that fails. `sendFailed` says whether
      one did; the poll that ends the loop sends nothing. */
  method Poll(dev: Scanner, senders: Channels, readBuf: array<F64>)
    returns (res: Result<(ScanStatus, nat)>, sendFailed: bool)
    requires dev.Valid() && senders.Valid() && |senders.queues| == readBuf.Length
    modifies dev, senders, readBuf
    ensures dev.Valid() && senders.Valid()
    ensures res == ReplyAt(dev.polls, old(dev.next)).result
    ensures readBuf[..] == Fill(old(readBuf[..]), ReplyAt(dev.polls, old(dev.next)).written)
    ensures dev.next == if old(dev.next) < |dev.polls| then old(dev.next) + 1 else old(dev.next)
    ensures dev.calls == old(dev.calls) + [Read(1, ZERO, readBuf.Length)]
    ensures senders.connected == old(senders.connected)
    ensures senders.queues
      == if EndsLoop(res) then old(senders.queues) else FanOut(old(senders.queues), senders.connected, readBuf[..])
    ensures sendFailed <==> !EndsLoop(res) && !NoneDropped(senders.connected)
  {
    res := dev.AInScanRead(1, ZERO, readBuf);
    sendFailed := false;
    match res {
      case Err(_) =>
      case Ok((status, samplesRead)) =>
        var endLoop := false;
        if Contains(status, {HwOverrun}) {
          endLoop := true;
        }
        if Contains(status, {BufferOverrun}) {
          endLoop := true;
        }
        if !Contains(status, {Running}) {
          endLoop := true;
        }
        if samplesRead == 0 {
          endLoop := true;
        }
        if endLoop {
          return;
        }

        ghost var frame := readBuf[..];
        ghost var fannedOut := FanOut(senders.queues, senders.connected, frame);
        for i := 0 to readBuf.Length
          invariant senders.Valid() && |senders.queues| == readBuf.Length
          invariant senders.connected == old(senders.connected)
          invariant FanOutFrom(senders.queues, senders.connected, frame, i) == fannedOut
          invariant !sendFailed && forall m :: 0 <= m < i ==> senders.connected[m]
          modifies senders
        {
          var sent := senders.Send(i, readBuf[i]);
          if !sent {
            // The receiver is gone. This leaves only the `for`.
            sendFailed := true;
            break;
          }
        }
    }
  }

  /** Where the worker's loop started: the device's remaining replies, its
      read position and call log, and the queues and held receivers. */
  datatype LoopStart = LoopStart(
    polls: seq<ReadReply>, next: nat, calls: seq<ScanCall>, queues: seq<seq<F64>>, connected: seq<bool>)

  /** The state of the worker's loop after `k` polls that did not end it. */
  ghost predicate AtPoll(
    dev: Scanner, senders: Channels, readBuf: array<F64>, hangups: seq<set<nat>>, s: LoopStart, k: nat)
    reads dev, senders, readBuf
  {
    && dev.Valid() && senders.Valid() && |senders.queues| == readBuf.Length == |s.queues|
    && s.next <= |dev.polls| && s.polls == dev.polls[s.next..]
    && k <= GoodPolls(s.polls)
    && dev.next == s.next + k
    && readBuf[..] == BufferAfter(s.polls, readBuf.Length, k)
    && senders.connected == LiveThrough(s.connected, hangups, k)
    && senders.queues == QueuesAfter(s.queues, s.connected, s.polls, hangups, k)
    && dev.calls == s.calls + Reads(k, readBuf.Length)
  }

  /** Poll `k` of the loop: the consumers drop the receivers in `hangups[k]`,
      then the worker polls once. Unless the reply ends the loop, the loop is
      at poll `k + 1`; `sendFailed` says whether the fan-out found a receiver
      gone. */
  method PollStep(
    dev: Scanner, senders: Channels, readBuf: array<F64>, hangups: seq<set<nat>>, ghost s: LoopStart, k: nat)
    returns (res: Result<(ScanStatus, nat)>, sendFailed: bool)
    requires AtPoll(dev, senders, readBuf, hangups, s, k)
    modifies dev, senders, readBuf
    ensures dev.Valid() && senders.Valid() && |senders.queues| == readBuf.Length
    ensures res == ReplyAt(s.polls, k).result
    ensures EndsLoop(res) <==> k == GoodPolls(s.polls)
    ensures !EndsLoop(res) ==> AtPoll(dev, senders, readBuf, hangups, s, k + 1)
    ensures EndsLoop(res) ==> senders.queues == QueuesAfter(s.queues, s.connected, s.polls, hangups, k)
    ensures senders.connected == LiveThrough(s.connected, hangups, k + 1)
    ensures dev.next == s.next + (if k < |s.polls| then k + 1 else k)
    ensures dev.calls == s.calls + Reads(k + 1, readBuf.Length)
    ensures sendFailed <==> !EndsLoop(res) && !NoneDropped(LiveThrough(s.connected, hangups, k + 1))
  {
    senders.DropReceivers(HangupsAt(hangups, k));
    assert ReplyAt(dev.polls, dev.next) == ReplyAt(s.polls, k);
    res, sendFailed := Poll(dev, senders, readBuf);
    ReadsStep(k, readBuf.Length);
    EndsAtGoodPolls(s.polls, k);
  }

  /** The worker's polling loop (lib.rs:46-86), over a buffer of one zero per
      channel: before each poll the consumers
      drop the receivers in `hangups[k]`; the loop runs until a reply ends it
      (`EndsLoop`), and never ends because a send failed. `last` is the reply
      that ended it. */
  method PollUntilEnd(dev: Scanner, senders: Channels, hangups: seq<set<nat>>)
    returns (ghost last: Result<(ScanStatus, nat)>)
    requires dev.Valid() && senders.Valid()
    modifies dev, senders
    ensures dev.Valid() && senders.Valid()
    ensures
      var polls := dev.polls[old(dev.next)..];
      var t := GoodPolls(polls);
      && last == ReplyAt(polls, t).result
      && senders.queues == QueuesAfter(old(senders.queues), old(senders.connected), polls, hangups, t)
      && senders.connected == LiveThrough(old(senders.connected), hangups, t + 1)
      && dev.next == old(dev.next) + (if t < |polls| then t + 1 else t)
      && dev.calls == old(dev.calls) + Reads(t + 1, |senders.queues|)
  {
    var readBuf := new F64[|senders.queues|](_ => ZERO);
    ghost var s := LoopStart(dev.polls[dev.next..], dev.next, dev.calls, senders.queues, senders.connected);
    var k: nat := 0;  // polls so far: indexes the consumers' hang-ups
    while true
      invariant AtPoll(dev, senders, readBuf, hangups, s, k)
      decreases |s.polls| - k
    {
      var res, _ := PollStep(dev, senders, readBuf, hangups, s, k);
      if EndsLoop(res) {
        last := res;
        break;
      }
      k := k + 1;
    }
  }

  /** The polling loop as its comments describe it (lib.rs:76): a failed send
      ends the loop itself, not only the fan-out of that frame. With `h` the
      first poll whose fan-out finds a receiver gone, the loop makes `h + 1`
      reads: the frame of poll `h` reaches the queues below the dropped
      receiver and nothing is polled after it. `last` is the reply that ended
      the loop, or `None` when a failed send did. */
  method PollUntilHangup(dev: Scanner, senders: Channels, hangups: seq<set<nat>>)
    returns (ghost last: Option<Result<(ScanStatus, nat)>>)
    requires dev.Valid() && senders.Valid()
    modifies dev, senders
    ensures dev.Valid() && senders.Valid()
    ensures
      var polls := dev.polls[old(dev.next)..];
      var t := GoodPolls(polls);
      var h := FirstLoss(old(senders.connected), hangups, 0, t);
      && last == (if h < t then None else Some(ReplyAt(polls, t).result))
      && senders.queues
         == QueuesAfter(old(senders.queues), old(senders.connected), polls, hangups, if h < t then h + 1 else t)
      && senders.connected == LiveThrough(old(senders.connected), hangups, h + 1)
      && dev.next == old(dev.next) + (if h < t || t < |polls| then h + 1 else t)
      && dev.calls == old(dev.calls) + Reads(h + 1, |senders.queues|)
  {
    var readBuf := new F64[|senders.queues|](_ => ZERO);
    ghost var s := LoopStart(dev.polls[dev.next..], dev.next, dev.calls, senders.queues, senders.connected);
    ghost var t := GoodPolls(s.polls);
    ghost var h := FirstLoss(s.connected, hangups, 0, t);
    var k: nat := 0;  // polls so far: indexes the consumers' hang-ups
    while true
      invariant AtPoll(dev, senders, readBuf, hangups, s, k)
      invariant k <= h
      decreases |s.polls| - k
    {
      var res, sendFailed := PollStep(dev, senders, readBuf, hangups, s, k);
      FirstLossStep(s.connected, hangups, 0, t, k);
      if EndsLoop(res) {
        assert k == h == t;
        last := Some(res);
        break;
      }
      if sendFailed {
        assert k == h < t;
        last := None;
        break;
      }
      k := k + 1;
    }
  }

  /** The end of the worker (lib.rs:88-94): the scan is stopped and then
      cleaned up, once each and whatever either returns; a failure of either
      is reported, not raised. */
  method Teardown(dev: Scanner) returns (ghost diagnostics: seq<Diagnostic>)
    modifies dev
    ensures dev.next == old(dev.next)
    ensures dev.calls == old(dev.calls) + [Stop, Cleanup]
    ensures diagnostics == TeardownDiagnostics(dev.stopResult, dev.cleanupResult)
  {
    var stopped := dev.AInScanStop();
    var cleaned := dev.AInScanCleanup();
    diagnostics := TeardownDiagnostics(stopped, cleaned);
  }

  /** The worker thread's body, run to its end, and the join that hands the
      device back (lib.rs:45-97): the polling loop, then the teardown, and the
      same device is given back. `diagnostics` is what the worker writes to
      standard error. */
  method Join(handle: JoinHandle, hangups: seq<set<nat>>) returns (dev: Scanner, ghost diagnostics: seq<Diagnostic>)
    requires handle.device.Valid() && handle.senders.Valid()
    requires |handle.senders.queues| == handle.channelCount
    modifies handle.device, handle.senders
    ensures dev == handle.device && dev.Valid() && handle.senders.Valid()
    ensures
      var polls := dev.polls[old(dev.next)..];
      var t := GoodPolls(polls);
      && handle.senders.queues
         == QueuesAfter(old(handle.senders.queues), old(handle.senders.connected), polls, hangups, t)
      && handle.senders.connected == LiveThrough(old(handle.senders.connected), hangups, t + 1)
      && dev.next == old(dev.next) + (if t < |polls| then t + 1 else t)
      && dev.calls == old(dev.calls) + Reads(t + 1, handle.channelCount) + [Stop, Cleanup]
      && diagnostics == PollDiagnostics(ReplyAt(polls, t).result) + TeardownDiagnostics(dev.stopResult, dev.cleanupResult)
  {
    dev := handle.device;
    var senders := handle.senders;
    ghost var last := PollUntilEnd(dev, senders, hangups);
    ghost var teardown := Teardown(dev);
    diagnostics := PollDiagnostics(last) + teardown;
  }

  /** The worker with `PollUntilHangup` in place of the polling loop: it stops
      at the first poll after a receiver is dropped, and then stops and cleans
      up the scan as usual. */
  method JoinStoppingOnHangup(handle: JoinHandle, hangups: seq<set<nat>>)
    returns (dev: Scanner, ghost diagnostics: seq<Diagnostic>)
    requires handle.device.Valid() && handle.senders.Valid()
    requires |handle.senders.queues| == handle.channelCount
    modifies handle.device, handle.senders
    ensures dev == handle.device && dev.Valid() && handle.senders.Valid()
    ensures
      var polls := dev.polls[old(dev.next)..];
      var t := GoodPolls(polls);
      var h := FirstLoss(old(handle.senders.connected), hangups, 0, t);
      && handle.senders.queues
         == QueuesAfter(old(handle.senders.queues), old(handle.senders.connected), polls, hangups, if h < t then h + 1 else t)
      && handle.senders.connected == LiveThrough(old(handle.senders.connected), hangups, h + 1)
      && dev.next == old(dev.next) + (if h < t || t < |polls| then h + 1 else t)
      && dev.calls == old(dev.calls) + Reads(h + 1, handle.channelCount) + [Stop, Cleanup]
      && diagnostics
         == (if h < t then [] else PollDiagnostics(ReplyAt(polls, t).result))
            + TeardownDiagnostics(dev.stopResult, dev.cleanupResult)
  {
    dev := handle.device;
    var senders := handle.senders;
    ghost var last := PollUntilHangup(dev, senders, hangups);
    ghost var teardown := Teardown(dev);
    diagnostics := (if last.Some? then PollDiagnostics(last.value) else []) + teardown;
  }

  /** The three-frame device of `DroppedReceiversKeepPolling`. */
  function ThreeFrames(): (polls: seq<ReadReply>)
    ensures |polls| == 3
  {
    seq(3, j => ReadReply(Ok(({Running}, 1)), [ZERO]))
  }

  /** A one-channel scan whose consumer drops its receiver before the first
      poll, on a device with three good frames: the worker as written makes
      four reads, one per frame and one that fails, and would go on as long as
      the device delivers; the worker that stops on a failed send makes one. */
  lemma DroppedReceiversKeepPolling()
    ensures GoodPolls(ThreeFrames()) + 1 == 4
    ensures FirstLoss([true], [{0}], 0, GoodPolls(ThreeFrames())) + 1 == 1
  {
    GoodPollsIs(ThreeFrames(), 3);
    assert !LiveThrough([true], [{0}], 1)[0];
  }

  /** The same input run end to end: a one-channel scan (mask 0b1) on the
      three-frame device whose consumer drops its receiver before the first
      poll. The worker as written makes four reads before it stops and cleans
      up; the worker that stops on a failed send makes one. */
  method DroppedReceiverScan(rate: F64) returns (ghost asWritten: seq<ScanCall>, ghost corrected: seq<ScanCall>)
    ensures asWritten == [Start(0x01, 0, rate, {Continuous})] + Reads(4, 1) + [Stop, Cleanup]
    ensures corrected == [Start(0x01, 0, rate, {Continuous})] + Reads(1, 1) + [Stop, Cleanup]
  {
    DroppedReceiversKeepPolling();
    var handle := StartOneChannel(rate);
    var dev, _ := Join(handle, [{0}]);
    asWritten := dev.calls;
    var handle' := StartOneChannel(rate);
    var dev', _ := JoinStoppingOnHangup(handle', [{0}]);
    corrected := dev'.calls;
  }

  /** `scan_channels` with mask 0b1 on a fresh three-frame device. */
  method StartOneChannel(rate: F64) returns (handle: JoinHandle)
    ensures fresh(handle.device) && fresh(handle.senders)
    ensures handle.device.Valid() && handle.senders.Valid() && handle.channelCount == 1
    ensures handle.senders.queues == [[]] && handle.senders.connected == [true]
    ensures handle.device.polls[handle.device.next..] == ThreeFrames()
    ensures handle.device.calls == [Start(0x01, 0, rate, {Continuous})]
  {
    var opts := ScanOptions(0x01, rate, true, true, false, false);
    assert ChannelsBelow(0x01, 8) == {0} by {
      forall i: nat | i < 8 ensures HasChannel(0x01, i) <==> i < 1 { }
    }
    var dev := new Scanner(Ok(()), ThreeFrames(), Ok(()), Ok(()));
    var r := ScanChannels(dev, opts);
    handle := r.value.0;
    assert dev.polls[dev.next..] == ThreeFrames();
  }

  /** `GoodPolls` is the first poll that ends the loop. */
  lemma GoodPollsIs(polls: seq<ReadReply>, t: nat)
    requires t <= |polls|
    requires forall j :: 0 <= j < t ==> !EndsLoop(polls[j].result)
    requires t < |polls| ==> EndsLoop(polls[t].result)
    ensures GoodPolls(polls) == t
  {
  }

  /** The replies of `ScanTwoChannels`'s device: one frame `(a[j], b[j])` per
      poll while RUNNING, then a buffer overrun with no samples. */
  function TwoChannelPolls(a: seq<F64>, b: seq<F64>): (polls: seq<ReadReply>)
    requires |a| == |b|
    ensures |polls| == |a| + 1
  {
    seq(|a|, j requires 0 <= j < |a| => ReadReply(Ok(({Running}, 1)), [a[j], b[j]]))
    + [ReadReply(Ok(({Running, BufferOverrun}, 0)), [])]
  }

  lemma TwoChannelFrames(a: seq<F64>, b: seq<F64>)
    requires |a| == |b|
    ensures forall j :: 0 <= j < |a| ==> ReplyAt(TwoChannelPolls(a, b), j) == ReadReply(Ok(({Running}, 1)), [a[j], b[j]])
  {
  }

  /** The options of `ScanTwoChannels`: channels 0 and 1, calibrated, internal
      clock and trigger. */
  function TwoChannelOptions(rate: F64): (opts: ScanOptions)
    ensures ChannelCount(opts) == 2
    ensures LowLevelOptions(opts) == {Continuous}
  {
    var opts := ScanOptions(0x03, rate, true, true, false, false);
    assert ChannelsBelow(0x03, 8) == {0, 1} by {
      forall i: nat | i < 8 ensures HasChannel(0x03, i) <==> i < 2 { }
    }
    opts
  }

  /** Over those replies the worker forwards every frame and stops at the
      overrun. */
  lemma TwoChannelGoodPolls(a: seq<F64>, b: seq<F64>)
    requires |a| == |b|
    ensures GoodPolls(TwoChannelPolls(a, b)) == |a|
  {
    TwoChannelFrames(a, b);
    GoodPollsIs(TwoChannelPolls(a, b), |a|);
  }

  /** Channel 0 of the frames is `a`, channel 1 is `b`. */
  lemma TwoChannelColumns(a: seq<F64>, b: seq<F64>)
    requires |a| == |b|
    ensures forall j :: 0 <= j < |a| ==> 2 <= |ReplyAt(TwoChannelPolls(a, b), j).written|
    ensures Column(TwoChannelPolls(a, b), |a|, 0) == a
    ensures Column(TwoChannelPolls(a, b), |a|, 1) == b
  {
    TwoChannelFrames(a, b);
  }

  /** Queue `i` receives channel `i` of every frame, in order. */
  lemma TwoChannelQueue(a: seq<F64>, b: seq<F64>, i: nat)
    requires |a| == |b| && i < 2
    ensures QueuesAfter([[], []], [true, true], TwoChannelPolls(a, b), [], |a|)[i] == if i == 0 then a else b
  {
    var polls := TwoChannelPolls(a, b);
    var column := if i == 0 then a else b;
    assert forall j :: 0 <= j < |a| ==> 2 <= |ReplyAt(polls, j).written| && Column(polls, |a|, i) == column by {
      TwoChannelColumns(a, b);
    }
    AllHeld([true, true], [], |a|);
    DeliveryInOrder([[], []], [true, true], polls, [], |a|, i);
    assert [[], []][i] + column == column;
  }

  /** Every frame reaches both queues, in order. */
  lemma TwoChannelDelivery(a: seq<F64>, b: seq<F64>)
    requires |a| == |b|
    ensures QueuesAfter([[], []], [true, true], TwoChannelPolls(a, b), [], |a|) == [a, b]
  {
    TwoChannelQueue(a, b, 0);
    TwoChannelQueue(a, b, 1);
  }

  /** The last poll is reported as an overrun and an empty read. */
  lemma TwoChannelReport(a: seq<F64>, b: seq<F64>)
    requires |a| == |b|
    ensures PollDiagnostics(ReplyAt(TwoChannelPolls(a, b), |a|).result) == [BufferOverrunDetected, NoSamplesRead]
  {
    assert TwoChannelPolls(a, b)[|a|] == ReadReply(Ok(({Running, BufferOverrun}, 0)), []);
  }

  /** A continuous two-channel scan (mask 0b11, calibrated, internal clock and
      trigger) on a device that delivers one frame `(a[j], b[j])` per poll and
      then reports a buffer overrun with no samples: the first receiver gets
      exactly `a`, the second exactly `b`, the worker reports the overrun and
      the empty read, and the device sees one start, one read per poll
      including the last, then one stop and one cleanup. */
  method ScanTwoChannels(rate: F64, a: seq<F64>, b: seq<F64>)
    returns (first: seq<F64>, second: seq<F64>, ghost calls: seq<ScanCall>, ghost diagnostics: seq<Diagnostic>)
    requires |a| == |b|
    ensures first == a && second == b
    ensures calls == [Start(0x03, 0, rate, {Continuous})] + Reads(|a| + 1, 2) + [Stop, Cleanup]
    ensures diagnostics == [BufferOverrunDetected, NoSamplesRead]
  {
    var polls := TwoChannelPolls(a, b);
    TwoChannelGoodPolls(a, b);
    TwoChannelDelivery(a, b);
    TwoChannelReport(a, b);
    var dev := new Scanner(Ok(()), polls, Ok(()), Ok(()));
    var r := ScanChannels(dev, TwoChannelOptions(rate));
    var (handle, receivers) := r.value;
    assert receivers.queues == [[], []] && receivers.connected == [true, true];
    assert dev.polls[dev.next..] == polls;
    assert dev.calls == [Start(0x03, 0, rate, {Continuous})];
    var _, diags := Join(handle, []);
    assert receivers.queues == [a, b];
    first, second := receivers.queues[0], receivers.queues[1];
    calls, diagnostics := dev.calls, diags;
  }
}
