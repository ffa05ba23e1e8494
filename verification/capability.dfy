/** The scanning capability a device offers the orchestrator (the `AInScanner`
    trait of src/core/mod.rs:192-201), as a device whose replies are fixed in
    advance. A device whose reads do not panic, over a run in which the worker
    makes finitely many reads, behaves like one of these for some choice of
    replies; one that delivers good frames forever, or whose read panics, does
    not. */
module Capability {
  import opened Core

  /** One reply to `a_in_scan_read`: the status and per-channel count it
      returns, and the values the device wrote into the caller's buffer,
      from its first slot on. */
  datatype ReadReply = ReadReply(result: Result<(ScanStatus, nat)>, written: seq<F64>)

  /** What a read answers once the scripted replies are used up. */
  const EXHAUSTED: ReadReply := ReadReply(Err(CommsFailure), [])

  /** The reply the read issued after `k` earlier reads receives. */
  function ReplyAt(polls: seq<ReadReply>, k: nat): (r: ReadReply)
    ensures k >= |polls| ==> r.result.Err?
  {
    if k < |polls| then polls[k] else EXHAUSTED
  }

  /** A buffer after the device wrote `written` into it: the written values
      replace the first slots, the rest keep what they held. */
  function Fill(buffer: seq<F64>, written: seq<F64>): (r: seq<F64>)
    ensures |r| == |buffer|
  {
    seq(|buffer|, i requires 0 <= i < |buffer| => if i < |written| then written[i] else buffer[i])
  }

  /** A call the orchestrator makes on the device, with its arguments. */
  datatype ScanCall =
    | Start(channelMask: bv8, bufferSamplesPerChannel: nat, sampleRatePerChannel: F64, options: OptionSet)
    | Read(samplesPerChannel: int, timeout: F64, bufferLength: nat)
    | Stop
    | Cleanup

  class Scanner {
    /** The replies of `a_in_scan_start`, `a_in_scan_stop` and `a_in_scan_cleanup`. */
    const startResult: Result<()>
    const stopResult: Result<()>
    const cleanupResult: Result<()>
    /** The replies of successive `a_in_scan_read` calls. */
    const polls: seq<ReadReply>
    /** How many of `polls` have been used. */
    var next: nat
    /** Every call made on the device, in order. */
    ghost var calls: seq<ScanCall>

    ghost predicate Valid()
      reads this
    {
      next <= |polls|
    }

    constructor (startResult: Result<()>, polls: seq<ReadReply>, stopResult: Result<()>, cleanupResult: Result<()>)
      ensures Valid()
      ensures this.startResult == startResult && this.polls == polls
      ensures this.stopResult == stopResult && this.cleanupResult == cleanupResult
      ensures next == 0 && calls == []
    {
      this.startResult := startResult;
      this.polls := polls;
      this.stopResult := stopResult;
      this.cleanupResult := cleanupResult;
      next := 0;
      calls := [];
    }

    method AInScanStart(channelMask: bv8, samplesPerChannel: nat, sampleRatePerChannel: F64, options: OptionSet)
      returns (r: Result<()>)
      modifies this
      ensures r == startResult
      ensures next == old(next)
      ensures calls == old(calls) + [Start(channelMask, samplesPerChannel, sampleRatePerChannel, options)]
    {
      r := startResult;
      calls := calls + [Start(channelMask, samplesPerChannel, sampleRatePerChannel, options)];
    }

    /** Reads with the next scripted reply; the device writes that reply's
        values into `buffer`. */
    method AInScanRead(samplesPerChannel: int, timeout: F64, buffer: array<F64>)
      returns (r: Result<(ScanStatus, nat)>)
      requires Valid()
      modifies this, buffer
      ensures Valid()
      ensures r == ReplyAt(polls, old(next)).result
      ensures buffer[..] == Fill(old(buffer[..]), ReplyAt(polls, old(next)).written)
      ensures next == if old(next) < |polls| then old(next) + 1 else old(next)
      ensures calls == old(calls) + [Read(samplesPerChannel, timeout, buffer.Length)]
    {
      var reply := ReplyAt(polls, next);
      var before := buffer[..];
      forall i | 0 <= i < buffer.Length && i < |reply.written| {
        buffer[i] := reply.written[i];
      }
      assert buffer[..] == Fill(before, reply.written);
      if next < |polls| {
        next := next + 1;
      }
      r := reply.result;
      calls := calls + [Read(samplesPerChannel, timeout, buffer.Length)];
    }

    method AInScanStop() returns (r: Result<()>)
      modifies this
      ensures r == stopResult
      ensures next == old(next)
      ensures calls == old(calls) + [Stop]
    {
      r := stopResult;
      calls := calls + [Stop];
    }

    method AInScanCleanup() returns (r: Result<()>)
      modifies this
      ensures r == cleanupResult
      ensures next == old(next)
      ensures calls == old(calls) + [Cleanup]
    {
      r := cleanupResult;
      calls := calls + [Cleanup];
    }
  }
}
