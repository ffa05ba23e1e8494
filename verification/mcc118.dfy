/** The MCC 118 handle (src/core/mcc118.rs): a thin wrapper over the C driver
    that names a board by its address, turns each driver status code into a
    `Result`, hands out the values the driver wrote only on success, checks the
    status words and channel counts the driver returns, and tears a running
    scan down when the handle is dropped.

    The driver itself is not part of this model. Each wrapper takes what the
    driver answers (its status code and the values it wrote) as parameters and
    records the call it made on `Driver.calls`. A Rust panic is the outcome
    `Panicked`. */
module Mcc118Device {
  import opened Core
  import opened Capability

  /** How a Rust call ends: it returns a value or it panics. */
  datatype Outcome<T> = Returned(value: T) | Panicked

  /** A call into the C driver, with the arguments the wrapper passes. */
  datatype DriverCall =
    | Mcc118Open(address: bv8)
    | Mcc118Close(address: bv8)
    | Mcc118IsOpen(address: bv8)
    | Mcc118AInRead(address: bv8, channel: bv8, options: OptionSet)
    | Mcc118AInScanActualRate(channelCount: bv8, sampleRatePerChannel: F64)
    | Mcc118AInScanStart(address: bv8, channelMask: bv8, samplesPerChannel: nat, sampleRatePerChannel: F64, options: OptionSet)
    | Mcc118AInScanBufferSize(address: bv8)
    | Mcc118AInScanStatus(address: bv8)
    | Mcc118AInScanRead(address: bv8, readSamplesPerChannel: int, timeout: F64, bufferSizeSamples: nat)
    | Mcc118AInScanChannelCount(address: bv8)
    | Mcc118AInScanStop(address: bv8)
    | Mcc118AInScanCleanup(address: bv8)

  /** The C driver as the wrappers see it: the constants its header defines and
      every call made on it, in order. */
  class Driver {
    const codes: ResultCodes
    const bits: StatusBits
    ghost var calls: seq<DriverCall>

    constructor (codes: ResultCodes, bits: StatusBits)
      ensures this.codes == codes && this.bits == bits && calls == []
    {
      this.codes := codes;
      this.bits := bits;
      calls := [];
    }
  }

  /** `result_c_to_rs(code).map(|_| v)`, where `v` is what the driver wrote into
      the out-parameter: `v` is handed out exactly when the code is success, any
      other listed code is its error, and a code outside the list panics in
      `ErrorCode::from`. */
  function Expose<T>(codes: ResultCodes, code: int, v: T): (o: Outcome<Result<T>>)
    ensures o.Panicked? <==> !Known(codes, code)
    ensures o == Returned(Ok(v)) <==> code == codes.success
    ensures o.Returned? && o.value.Err? ==> code != codes.success && Discriminant(codes, o.value.error) == code
  {
    if !Known(codes, code) then Panicked
    else
      match ResultCToRs(codes, code)
      case Ok(_) => Returned(Ok(v))
      case Err(e) => Returned(Err(e))
  }

  /** What the driver answers to a status query or a scan read: its status
      code, the status word and the per-channel sample count it wrote. */
  datatype StatusReply = StatusReply(code: int, word: StatusWord, samples: nat)

  /** `result_c_to_rs(res).map(|_| (ScanStatus::from_bits(status).unwrap(),
      samples))` (mcc118.rs:128, 146): on success the word must hold only the
      four status bits, or `unwrap` panics; the flags returned are exactly the
      bits the word holds. On failure the word is not looked at. */
  function DecodeScan(codes: ResultCodes, bits: StatusBits, reply: StatusReply): (o: Outcome<Result<(ScanStatus, nat)>>)
    ensures o.Panicked? <==>
      || !Known(codes, reply.code)
      || (reply.code == codes.success && exists b :: b in reply.word && b !in AllBits(bits))
    ensures o.Returned? && o.value.Ok? ==>
      && reply.code == codes.success
      && ToBits(bits, o.value.value.0) == reply.word
      && o.value.value.1 == reply.samples
    ensures o.Returned? && o.value.Err? ==> reply.code != codes.success && Discriminant(codes, o.value.error) == reply.code
  {
    match Expose(codes, reply.code, reply.word)
    case Panicked => Panicked
    case Returned(Err(e)) => Returned(Err(e))
    case Returned(Ok(word)) =>
      match FromBits(bits, word)
      case None => Panicked
      case Some(flags) =>
        StatusWordRoundTrip(bits, word);
        Returned(Ok((flags, reply.samples)))
  }

  /** The asserts of `a_in_scan_channel_count` (mcc118.rs:151-152): the driver's
      count is returned when it lies in 0..8 and panics otherwise. */
  function CheckChannelCount(count: int): (o: Outcome<nat>)
    ensures o.Returned? <==> 0 <= count <= 8
    ensures o.Returned? ==> o.value == count && o.value <= 8
  {
    if count < 0 then Panicked
    else if count > 8 then Panicked
    else Returned(count)
  }

  /** A status query or read that reports the scan still running. */
  predicate ReportsRunning(codes: ResultCodes, bits: StatusBits, reply: StatusReply) {
    var o := DecodeScan(codes, bits, reply);
    o.Returned? && o.value.Ok? && Contains(o.value.value.0, {Running})
  }

  /** A status query that returned a status. */
  predicate Answered(codes: ResultCodes, bits: StatusBits, reply: StatusReply) {
    var o := DecodeScan(codes, bits, reply);
    o.Returned? && o.value.Ok?
  }

  /** The driver calls of a handle being dropped or closed, and how the call ends. */
  datatype Effects<T> = Effects(calls: seq<DriverCall>, outcome: Outcome<T>)

  /** Where each teardown call may stand: status, then stop, then cleanup, then close. */
  function TeardownRank(c: DriverCall): nat {
    match c
    case Mcc118AInScanStatus(_) => 0
    case Mcc118AInScanStop(_) => 1
    case Mcc118AInScanCleanup(_) => 2
    case _ => 3
  }

  /** `Drop for Mcc118` (mcc118.rs:168-178): query the status; if that succeeds,
      stop the scan when it is running and then clean it up, unwrapping both;
      then close the device. A failed stop or cleanup panics before the close. */
  function DropEffects(codes: ResultCodes, bits: StatusBits, address: bv8, status: StatusReply, stopCode: int, cleanupCode: int)
    : (e: Effects<()>)
    ensures |e.calls| >= 1 && e.calls[0] == Mcc118AInScanStatus(address)
    ensures e.outcome.Returned? <==> Mcc118Close(address) in e.calls
    ensures DecodeScan(codes, bits, status).Returned? && !Answered(codes, bits, status)
      ==> e.calls == [Mcc118AInScanStatus(address), Mcc118Close(address)]
  {
    var statusCall := [Mcc118AInScanStatus(address)];
    match DecodeScan(codes, bits, status)
    case Panicked => Effects(statusCall, Panicked)
    case Returned(Err(_)) => Effects(statusCall + [Mcc118Close(address)], Returned(()))
    case Returned(Ok((flags, _))) =>
      if Contains(flags, {Running}) && stopCode != codes.success then
        Effects(statusCall + [Mcc118AInScanStop(address)], Panicked)
      else
        var stopCall := if Contains(flags, {Running}) then [Mcc118AInScanStop(address)] else [];
        if cleanupCode != codes.success then
          Effects(statusCall + stopCall + [Mcc118AInScanCleanup(address)], Panicked)
        else
          Effects(statusCall + stopCall + [Mcc118AInScanCleanup(address), Mcc118Close(address)], Returned(()))
  }

  /** `Drop` makes its calls in the order status, stop, cleanup, close, each at
      most once. */
  lemma DropOrdered(codes: ResultCodes, bits: StatusBits, address: bv8, status: StatusReply, stopCode: int, cleanupCode: int)
    ensures var calls := DropEffects(codes, bits, address, status, stopCode, cleanupCode).calls;
      forall i, j :: 0 <= i < j < |calls| ==> TeardownRank(calls[i]) < TeardownRank(calls[j])
  {
  }

  /** `Drop` stops the scan exactly when the status says it is running, and
      cleans it up exactly when the status was read and any stop succeeded. */
  lemma DropStopsAndCleans(codes: ResultCodes, bits: StatusBits, address: bv8, status: StatusReply, stopCode: int, cleanupCode: int)
    ensures var calls := DropEffects(codes, bits, address, status, stopCode, cleanupCode).calls;
      && (Mcc118AInScanStop(address) in calls <==> ReportsRunning(codes, bits, status))
      && (Mcc118AInScanCleanup(address) in calls
          <==> Answered(codes, bits, status) && (ReportsRunning(codes, bits, status) ==> stopCode == codes.success))
  {
  }

  /** `Drop` returns when the status query fails with an error, or when it
      succeeds and the stop it needed and the cleanup both succeed; it panics
      otherwise. */
  lemma DropReturns(codes: ResultCodes, bits: StatusBits, address: bv8, status: StatusReply, stopCode: int, cleanupCode: int)
    ensures DropEffects(codes, bits, address, status, stopCode, cleanupCode).outcome.Returned? <==>
      || (!Answered(codes, bits, status) && DecodeScan(codes, bits, status).Returned?)
      || (&& Answered(codes, bits, status)
          && (ReportsRunning(codes, bits, status) ==> stopCode == codes.success)
          && cleanupCode == codes.success)
  {
  }

  /** `Mcc118::close(self)` (mcc118.rs:40-43): close the device, and since the
      handle is consumed, run `Drop`, which closes it a second time. The result
      is that of the first close; a panic in `ErrorCode::from` or in `Drop`
      makes the whole call panic, and `Drop` runs either way. */
  function CloseEffects(
    codes: ResultCodes, bits: StatusBits, address: bv8, closeCode: int, status: StatusReply, stopCode: int, cleanupCode: int)
    : (e: Effects<Result<()>>)
    ensures |e.calls| >= 1 && e.calls[0] == Mcc118Close(address)
    ensures e.calls[1..] == DropEffects(codes, bits, address, status, stopCode, cleanupCode).calls
    ensures e.outcome.Returned? <==>
      Known(codes, closeCode) && DropEffects(codes, bits, address, status, stopCode, cleanupCode).outcome.Returned?
    ensures e.outcome.Returned? ==> e.outcome.value == ResultCToRs(codes, closeCode)
  {
    var dropped := DropEffects(codes, bits, address, status, stopCode, cleanupCode);
    Effects([Mcc118Close(address)] + dropped.calls,
      if dropped.outcome.Panicked? then Panicked else Expose(codes, closeCode, ()))
  }

  /** A `Drop` that returns closes the device exactly once. */
  lemma DropClosesOnce(codes: ResultCodes, bits: StatusBits, address: bv8, status: StatusReply, stopCode: int, cleanupCode: int)
    ensures DropEffects(codes, bits, address, status, stopCode, cleanupCode).outcome.Returned?
      ==> multiset(DropEffects(codes, bits, address, status, stopCode, cleanupCode).calls)[Mcc118Close(address)] == 1
  {
  }

  /** A `close` that returns has closed the device twice: once itself and
      once in the `Drop` of the consumed handle. */
  lemma CloseClosesTwice(
    codes: ResultCodes, bits: StatusBits, address: bv8, closeCode: int, status: StatusReply, stopCode: int, cleanupCode: int)
    ensures var e := CloseEffects(codes, bits, address, closeCode, status, stopCode, cleanupCode);
      e.outcome.Returned? ==> multiset(e.calls)[Mcc118Close(address)] == 2
  {
    var e := CloseEffects(codes, bits, address, closeCode, status, stopCode, cleanupCode);
    if e.outcome.Returned? {
      DropClosesOnce(codes, bits, address, status, stopCode, cleanupCode);
      assert e.calls == [Mcc118Close(address)] + e.calls[1..];
    }
  }

  /** An open MCC 118 handle: the board's address. */
  datatype Mcc118 = Mcc118(address: bv8)
  {
    /** `Mcc118::open` (mcc118.rs:35-38): a handle exists only when the driver
        opened the board. */
    static method Open(driver: Driver, address: bv8, code: int) returns (o: Outcome<Result<Mcc118>>)
      modifies driver
      ensures driver.calls == old(driver.calls) + [Mcc118Open(address)]
      ensures o == Expose(driver.codes, code, Mcc118.Mcc118(address))
    {
      driver.calls := driver.calls + [Mcc118Open(address)];
      o := Expose(driver.codes, code, Mcc118.Mcc118(address));
    }

    /** `Mcc118::is_open` (mcc118.rs:45-50): panics unless the driver answers 1. */
    method IsOpen(driver: Driver, answer: int) returns (o: Outcome<()>)
      modifies driver
      ensures driver.calls == old(driver.calls) + [Mcc118IsOpen(address)]
      ensures o.Returned? <==> answer == 1
    {
      driver.calls := driver.calls + [Mcc118IsOpen(address)];
      if answer != 1 {
        return Panicked;
      }
      o := Returned(());
    }

    /** `AIn::a_in_read` (mcc118.rs:99-103): the value the driver wrote, on
        success only. */
    method AInRead(driver: Driver, channel: bv8, options: OptionSet, code: int, value: F64)
      returns (o: Outcome<Result<F64>>)
      modifies driver
      ensures driver.calls == old(driver.calls) + [Mcc118AInRead(address, channel, options)]
      ensures o == Expose(driver.codes, code, value)
    {
      driver.calls := driver.calls + [Mcc118AInRead(address, channel, options)];
      o := Expose(driver.codes, code, value);
    }

    /** `a_in_scan_actual_rate` (mcc118.rs:107-111), which needs no board. */
    static method AInScanActualRate(driver: Driver, channelCount: bv8, sampleRatePerChannel: F64, code: int, actualRate: F64)
      returns (o: Outcome<Result<F64>>)
      modifies driver
      ensures driver.calls == old(driver.calls) + [Mcc118AInScanActualRate(channelCount, sampleRatePerChannel)]
      ensures o == Expose(driver.codes, code, actualRate)
    {
      driver.calls := driver.calls + [Mcc118AInScanActualRate(channelCount, sampleRatePerChannel)];
      o := Expose(driver.codes, code, actualRate);
    }

    /** `a_in_scan_start` (mcc118.rs:113-116): the arguments go to the driver
        unchanged. */
    method AInScanStart(
      driver: Driver, channelMask: bv8, samplesPerChannel: nat, sampleRatePerChannel: F64, options: OptionSet, code: int)
      returns (o: Outcome<Result<()>>)
      requires samplesPerChannel < 0x1_0000_0000
      modifies driver
      ensures driver.calls
        == old(driver.calls) + [Mcc118AInScanStart(address, channelMask, samplesPerChannel, sampleRatePerChannel, options)]
      ensures o == Expose(driver.codes, code, ())
    {
      driver.calls := driver.calls + [Mcc118AInScanStart(address, channelMask, samplesPerChannel, sampleRatePerChannel, options)];
      o := Expose(driver.codes, code, ());
    }

    /** `a_in_scan_buffer_size` (mcc118.rs:118-122) */
    method AInScanBufferSize(driver: Driver, code: int, size: nat) returns (o: Outcome<Result<nat>>)
      modifies driver
      ensures driver.calls == old(driver.calls) + [Mcc118AInScanBufferSize(address)]
      ensures o == Expose(driver.codes, code, size)
    {
      driver.calls := driver.calls + [Mcc118AInScanBufferSize(address)];
      o := Expose(driver.codes, code, size);
    }

    /** `a_in_scan_status` (mcc118.rs:124-129) */
    method AInScanStatus(driver: Driver, reply: StatusReply) returns (o: Outcome<Result<(ScanStatus, nat)>>)
      modifies driver
      ensures driver.calls == old(driver.calls) + [Mcc118AInScanStatus(address)]
      ensures o == DecodeScan(driver.codes, driver.bits, reply)
    {
      driver.calls := driver.calls + [Mcc118AInScanStatus(address)];
      o := DecodeScan(driver.codes, driver.bits, reply);
    }

    /** `a_in_scan_read` (mcc118.rs:131-147): the driver writes `written` into
        the caller's buffer, whose length it is told as a `u32`. */
    method AInScanRead(
      driver: Driver, samplesPerChannel: int, timeout: F64, buffer: array<F64>, reply: StatusReply, written: seq<F64>)
      returns (o: Outcome<Result<(ScanStatus, nat)>>)
      modifies driver, buffer
      ensures driver.calls
        == old(driver.calls) + [Mcc118AInScanRead(address, samplesPerChannel, timeout, buffer.Length % 0x1_0000_0000)]
      ensures buffer[..] == Fill(old(buffer[..]), written)
      ensures o == DecodeScan(driver.codes, driver.bits, reply)
    {
      driver.calls := driver.calls + [Mcc118AInScanRead(address, samplesPerChannel, timeout, buffer.Length % 0x1_0000_0000)];
      forall i | 0 <= i < buffer.Length && i < |written| {
        buffer[i] := written[i];
      }
      o := DecodeScan(driver.codes, driver.bits, reply);
    }

    /** `a_in_scan_channel_count` (mcc118.rs:149-155) */
    method AInScanChannelCount(driver: Driver, count: int) returns (o: Outcome<nat>)
      modifies driver
      ensures driver.calls == old(driver.calls) + [Mcc118AInScanChannelCount(address)]
      ensures o == CheckChannelCount(count)
    {
      driver.calls := driver.calls + [Mcc118AInScanChannelCount(address)];
      if count < 0 {
        return Panicked;
      }
      if count > 8 {
        return Panicked;
      }
      o := Returned(count);
    }

    /** `a_in_scan_stop` (mcc118.rs:157-160) */
    method AInScanStop(driver: Driver, code: int) returns (o: Outcome<Result<()>>)
      modifies driver
      ensures driver.calls == old(driver.calls) + [Mcc118AInScanStop(address)]
      ensures o == Expose(driver.codes, code, ())
    {
      driver.calls := driver.calls + [Mcc118AInScanStop(address)];
      o := Expose(driver.codes, code, ());
    }

    /** `a_in_scan_cleanup` (mcc118.rs:162-165) */
    method AInScanCleanup(driver: Driver, code: int) returns (o: Outcome<Result<()>>)
      modifies driver
      ensures driver.calls == old(driver.calls) + [Mcc118AInScanCleanup(address)]
      ensures o == Expose(driver.codes, code, ())
    {
      driver.calls := driver.calls + [Mcc118AInScanCleanup(address)];
      o := Expose(driver.codes, code, ());
    }

    /** `Drop for Mcc118` (mcc118.rs:168-178); the close's own code is ignored. */
    method Drop(driver: Driver, status: StatusReply, stopCode: int, cleanupCode: int) returns (o: Outcome<()>)
      modifies driver
      ensures driver.calls
        == old(driver.calls) + DropEffects(driver.codes, driver.bits, address, status, stopCode, cleanupCode).calls
      ensures o == DropEffects(driver.codes, driver.bits, address, status, stopCode, cleanupCode).outcome
    {
      var queried := AInScanStatus(driver, status);
      if queried.Panicked? {
        return Panicked;
      }
      if queried.value.Ok? {
        var (flags, _) := queried.value.value;
        if Contains(flags, {Running}) {
          var stopped := AInScanStop(driver, stopCode);
          if stopped != Returned(Ok(())) {
            return Panicked;
          }
        }
        var cleaned := AInScanCleanup(driver, cleanupCode);
        if cleaned != Returned(Ok(())) {
          return Panicked;
        }
      }
      driver.calls := driver.calls + [Mcc118Close(address)];
      o := Returned(());
    }

    /** `Mcc118::close(self)` (mcc118.rs:40-43), followed by the `Drop` of the
        consumed handle. */
    method Close(driver: Driver, closeCode: int, status: StatusReply, stopCode: int, cleanupCode: int)
      returns (o: Outcome<Result<()>>)
      modifies driver
      ensures driver.calls
        == old(driver.calls) + CloseEffects(driver.codes, driver.bits, address, closeCode, status, stopCode, cleanupCode).calls
      ensures o == CloseEffects(driver.codes, driver.bits, address, closeCode, status, stopCode, cleanupCode).outcome
    {
      ghost var before := driver.calls;
      ghost var effects := CloseEffects(driver.codes, driver.bits, address, closeCode, status, stopCode, cleanupCode);
      driver.calls := driver.calls + [Mcc118Close(address)];
      var closed := Expose(driver.codes, closeCode, ());
      var dropped := Drop(driver, status, stopCode, cleanupCode);
      assert driver.calls == before + effects.calls by {
        assert effects.calls == [Mcc118Close(address)] + effects.calls[1..];
      }
      if dropped.Panicked? {
        return Panicked;
      }
      o := closed;
    }
  }
}
