/** What the acquisition worker of `scan_channels` (src/lib.rs:45-97) computes,
    stated as functions of the device's replies and of the moments at which
    consumers drop their receivers, with the properties the orchestration
    promises proved about them. `Daqhats.Join` runs the worker step by step and
    is proved to end in the state these functions describe. */
module Worker {
  import opened Core
  import opened Capability

  /** The checks of lib.rs:52-72 and 81-84: a poll ends the loop on a read
      error, on either overrun, when RUNNING is clear, or when it read no
      samples. */
  predicate EndsLoop(r: Result<(ScanStatus, nat)>)
    ensures !EndsLoop(r) <==>
      && r.Ok? && r.value.1 > 0
      && Running in r.value.0 && HwOverrun !in r.value.0 && BufferOverrun !in r.value.0
  {
    match r
    case Err(_) => true
    case Ok((status, samplesRead)) =>
      || Contains(status, {HwOverrun})
      || Contains(status, {BufferOverrun})
      || !Contains(status, {Running})
      || samplesRead == 0
  }

  /** The lines the worker writes to standard error. */
  datatype Diagnostic =
    | HardwareOverrunDetected
    | BufferOverrunDetected
    | ScanStoppedUnexpectedly
    | NoSamplesRead
    | ErrorReadingSamples(error: ErrorCode)
    | ErrorStoppingScan(error: ErrorCode)
    | ErrorCleaningUpScan(error: ErrorCode)

  /** What the worker reports about one poll, in the order it checks
      (lib.rs:53-68, 82): a poll ends the loop exactly when it is reported. */
  function PollDiagnostics(r: Result<(ScanStatus, nat)>): (d: seq<Diagnostic>)
    ensures d != [] <==> EndsLoop(r)
    ensures r.Err? ==> d == [ErrorReadingSamples(r.error)]
    ensures |d| <= 4
  {
    match r
    case Err(e) => [ErrorReadingSamples(e)]
    case Ok((status, samplesRead)) =>
      (if Contains(status, {HwOverrun}) then [HardwareOverrunDetected] else [])
      + (if Contains(status, {BufferOverrun}) then [BufferOverrunDetected] else [])
      + (if !Contains(status, {Running}) then [ScanStoppedUnexpectedly] else [])
      + (if samplesRead == 0 then [NoSamplesRead] else [])
  }

  /** What the worker reports about stopping and cleaning up (lib.rs:89-94). */
  function TeardownDiagnostics(stopped: Result<()>, cleaned: Result<()>): (d: seq<Diagnostic>)
    ensures d == [] <==> stopped.Ok? && cleaned.Ok?
    ensures stopped.Err? ==> d[0] == ErrorStoppingScan(stopped.error)
    ensures cleaned.Err? ==> d[|d| - 1] == ErrorCleaningUpScan(cleaned.error)
  {
    (if stopped.Err? then [ErrorStoppingScan(stopped.error)] else [])
    + (if cleaned.Err? then [ErrorCleaningUpScan(cleaned.error)] else [])
  }

  /** The number of leading replies that do not end the loop. */
  function GoodPolls(polls: seq<ReadReply>): (t: nat)
    ensures t <= |polls|
    ensures forall j :: 0 <= j < t ==> !EndsLoop(polls[j].result)
    ensures t < |polls| ==> EndsLoop(polls[t].result)
  {
    if |polls| == 0 || EndsLoop(polls[0].result) then 0
    else 1 + GoodPolls(polls[1..])
  }

  /** Poll `k`, reached without an earlier poll ending the loop, ends it
      exactly when it is poll `GoodPolls`. */
  lemma EndsAtGoodPolls(polls: seq<ReadReply>, k: nat)
    requires k <= GoodPolls(polls)
    ensures EndsLoop(ReplyAt(polls, k).result) <==> k == GoodPolls(polls)
  {
  }

  /** The receivers whose consumers have dropped them by poll `k`. */
  function HangupsAt(hangups: seq<set<nat>>, k: nat): set<nat> {
    if k < |hangups| then hangups[k] else {}
  }

  /** Which receivers are still held once those in `gone` are dropped. */
  function Hang(connected: seq<bool>, gone: set<nat>): (c: seq<bool>)
    ensures |c| == |connected|
  {
    seq(|connected|, i requires 0 <= i < |connected| => connected[i] && i !in gone)
  }

  /** Which receivers are held after the drops of the first `k` polls. */
  function LiveThrough(c0: seq<bool>, hangups: seq<set<nat>>, k: nat): (c: seq<bool>)
    ensures |c| == |c0|
  {
    if k == 0 then c0 else Hang(LiveThrough(c0, hangups, k - 1), HangupsAt(hangups, k - 1))
  }

  /** A frame's fan-out reaches queue `i` when no queue up to `i` has lost its
      receiver. */
  predicate Reaches(connected: seq<bool>, i: nat)
    requires i < |connected|
  {
    forall m :: 0 <= m <= i ==> connected[m]
  }

  /** lib.rs:74-79: send `frame[i]` on queue `i` for `i = from, from + 1, ...`,
      stopping at the first queue whose receiver is gone. */
  function FanOutFrom(queues: seq<seq<F64>>, connected: seq<bool>, frame: seq<F64>, from: nat): (r: seq<seq<F64>>)
    requires |connected| == |queues| == |frame| && from <= |queues|
    ensures |r| == |queues|
    decreases |queues| - from
  {
    if from == |queues| || !connected[from] then queues
    else FanOutFrom(queues[from := queues[from] + [frame[from]]], connected, frame, from + 1)
  }

  /** One frame's fan-out appends `frame[i]` to queue `i` when the frame reaches
      it, and leaves the queue alone otherwise: a queue is only ever fed the
      buffer slot with its own index, and a dropped receiver cuts off every
      queue above it for that frame. */
  function FanOut(queues: seq<seq<F64>>, connected: seq<bool>, frame: seq<F64>): (r: seq<seq<F64>>)
    requires |connected| == |queues| == |frame|
    ensures |r| == |queues|
    ensures forall i :: 0 <= i < |queues| ==>
      r[i] == if Reaches(connected, i) then queues[i] + [frame[i]] else queues[i]
  {
    FanOutFromAll(queues, connected, frame);
    FanOutFrom(queues, connected, frame, 0)
  }

  lemma {:induction false} FanOutFromAt(queues: seq<seq<F64>>, connected: seq<bool>, frame: seq<F64>, from: nat, i: nat)
    requires |connected| == |queues| == |frame| && from <= |queues| && i < |queues|
    ensures FanOutFrom(queues, connected, frame, from)[i]
      == if from <= i && (forall m :: from <= m <= i ==> connected[m]) then queues[i] + [frame[i]] else queues[i]
    decreases |queues| - from
  {
    if from < |queues| && connected[from] {
      FanOutFromAt(queues[from := queues[from] + [frame[from]]], connected, frame, from + 1, i);
    }
  }

  lemma FanOutFromAll(queues: seq<seq<F64>>, connected: seq<bool>, frame: seq<F64>)
    requires |connected| == |queues| == |frame|
    ensures forall i :: 0 <= i < |queues| ==>
      FanOutFrom(queues, connected, frame, 0)[i]
      == if Reaches(connected, i) then queues[i] + [frame[i]] else queues[i]
  {
    forall i | 0 <= i < |queues|
      ensures FanOutFrom(queues, connected, frame, 0)[i]
        == if Reaches(connected, i) then queues[i] + [frame[i]] else queues[i]
    {
      FanOutFromAt(queues, connected, frame, 0, i);
    }
  }

  /** The read buffer after the first `k` polls of an `n`-channel scan; it
      starts as `n` zeros (lib.rs:46). */
  function BufferAfter(polls: seq<ReadReply>, n: nat, k: nat): (b: seq<F64>)
    ensures |b| == n
  {
    if k == 0 then seq(n, _ => ZERO)
    else Fill(BufferAfter(polls, n, k - 1), ReplyAt(polls, k - 1).written)
  }

  /** The queues after the first `k` polls have each been fanned out, with the
      receivers held at that poll. */
  function QueuesAfter(q0: seq<seq<F64>>, c0: seq<bool>, polls: seq<ReadReply>, hangups: seq<set<nat>>, k: nat)
    : (q: seq<seq<F64>>)
    requires |c0| == |q0|
    ensures |q| == |q0|
  {
    if k == 0 then q0
    else FanOutFrom(QueuesAfter(q0, c0, polls, hangups, k - 1), LiveThrough(c0, hangups, k), BufferAfter(polls, |q0|, k), 0)
  }

  /** Each poll adds at most one value to queue `i`: slot `i` of the buffer it
      read, and only while the receivers up to `i` are held. */
  lemma QueueStep(q0: seq<seq<F64>>, c0: seq<bool>, polls: seq<ReadReply>, hangups: seq<set<nat>>, k: nat, i: nat)
    requires |c0| == |q0| && i < |q0|
    ensures QueuesAfter(q0, c0, polls, hangups, k + 1)[i]
      == if Reaches(LiveThrough(c0, hangups, k + 1), i)
         then QueuesAfter(q0, c0, polls, hangups, k)[i] + [BufferAfter(polls, |q0|, k + 1)[i]]
         else QueuesAfter(q0, c0, polls, hangups, k)[i]
  {
    FanOutFromAt(QueuesAfter(q0, c0, polls, hangups, k), LiveThrough(c0, hangups, k + 1), BufferAfter(polls, |q0|, k + 1), 0, i);
  }

  /** A dropped receiver stays dropped. */
  lemma {:induction false} LiveMonotone(c0: seq<bool>, hangups: seq<set<nat>>, j: nat, k: nat, i: nat)
    requires j <= k && i < |c0|
    requires LiveThrough(c0, hangups, k)[i]
    ensures LiveThrough(c0, hangups, j)[i]
  {
    if j < k {
      LiveMonotone(c0, hangups, j, k - 1, i);
    }
  }

  /** Once receiver `j` is dropped (by poll `s - 1`), no queue at or above `j`
      receives anything more, however long the worker goes on polling. */
  lemma {:induction false} FrozenAfterHangup(
    q0: seq<seq<F64>>, c0: seq<bool>, polls: seq<ReadReply>, hangups: seq<set<nat>>, s: nat, k: nat, j: nat, i: nat)
    requires |c0| == |q0| && j <= i < |q0|
    requires 1 <= s && s - 1 <= k
    requires !LiveThrough(c0, hangups, s)[j]
    ensures QueuesAfter(q0, c0, polls, hangups, k)[i] == QueuesAfter(q0, c0, polls, hangups, s - 1)[i]
  {
    if k >= s {
      FrozenAfterHangup(q0, c0, polls, hangups, s, k - 1, j, i);
      if LiveThrough(c0, hangups, k)[j] {
        LiveMonotone(c0, hangups, s, k, j);
      }
      Unreached(q0, c0, polls, hangups, k - 1, j, i);
    }
  }

  /** A poll whose fan-out finds receiver `j` gone adds nothing to queue `j`
      or any queue above it. */
  lemma Unreached(q0: seq<seq<F64>>, c0: seq<bool>, polls: seq<ReadReply>, hangups: seq<set<nat>>, k: nat, j: nat, i: nat)
    requires |c0| == |q0| && j <= i < |q0|
    requires !LiveThrough(c0, hangups, k + 1)[j]
    ensures QueuesAfter(q0, c0, polls, hangups, k + 1)[i] == QueuesAfter(q0, c0, polls, hangups, k)[i]
  {
    QueueStep(q0, c0, polls, hangups, k, i);
  }

  /** The `i`-th value each of the first `k` replies wrote. */
  function Column(polls: seq<ReadReply>, k: nat, i: nat): (c: seq<F64>)
    requires forall j :: 0 <= j < k ==> i < |ReplyAt(polls, j).written|
    ensures |c| == k
  {
    seq(k, j requires 0 <= j < k => ReplyAt(polls, j).written[i])
  }

  /** A buffer filled by a reply that wrote a whole frame holds that frame. */
  lemma FullFrame(polls: seq<ReadReply>, n: nat, k: nat, i: nat)
    requires i < n <= |ReplyAt(polls, k).written|
    ensures BufferAfter(polls, n, k + 1)[i] == ReplyAt(polls, k).written[i]
  {
  }

  /** With every receiver held through `k` polls and every poll writing a
      whole frame, queue `i` receives slot `i` of each frame in poll order:
      after `k` polls it has grown by exactly `k` values, with no value from
      another channel. */
  lemma {:induction false} DeliveryInOrder(
    q0: seq<seq<F64>>, c0: seq<bool>, polls: seq<ReadReply>, hangups: seq<set<nat>>, k: nat, i: nat)
    requires |c0| == |q0| && i < |q0|
    requires NoneDropped(LiveThrough(c0, hangups, k))
    requires forall j :: 0 <= j < k ==> |q0| <= |ReplyAt(polls, j).written|
    ensures QueuesAfter(q0, c0, polls, hangups, k)[i] == q0[i] + Column(polls, k, i)
  {
    if k > 0 {
      HeldEarlier(c0, hangups, k - 1, k);
      DeliveryInOrder(q0, c0, polls, hangups, k - 1, i);
      DeliveryStep(q0, c0, polls, hangups, k - 1, i);
      ColumnStep(polls, k - 1, i);
    }
  }

  /** With every receiver held through `k` polls, every fan-out reaches every
      queue, so each queue has grown by exactly `k` values, whether or not the
      replies wrote whole frames. */
  lemma {:induction false} QueueLengths(
    q0: seq<seq<F64>>, c0: seq<bool>, polls: seq<ReadReply>, hangups: seq<set<nat>>, k: nat, i: nat)
    requires |c0| == |q0| && i < |q0|
    requires NoneDropped(LiveThrough(c0, hangups, k))
    ensures |QueuesAfter(q0, c0, polls, hangups, k)[i]| == |q0[i]| + k
  {
    if k > 0 {
      HeldEarlier(c0, hangups, k - 1, k);
      QueueLengths(q0, c0, polls, hangups, k - 1, i);
      QueueStep(q0, c0, polls, hangups, k - 1, i);
    }
  }

  /** A poll whose frame reaches queue `i` and covers slot `i` appends that slot. */
  lemma DeliveryStep(q0: seq<seq<F64>>, c0: seq<bool>, polls: seq<ReadReply>, hangups: seq<set<nat>>, k: nat, i: nat)
    requires |c0| == |q0| && i < |q0| <= |ReplyAt(polls, k).written|
    requires Reaches(LiveThrough(c0, hangups, k + 1), i)
    ensures QueuesAfter(q0, c0, polls, hangups, k + 1)[i]
      == QueuesAfter(q0, c0, polls, hangups, k)[i] + [ReplyAt(polls, k).written[i]]
  {
    QueueStep(q0, c0, polls, hangups, k, i);
    FullFrame(polls, |q0|, k, i);
  }

  lemma ColumnStep(polls: seq<ReadReply>, k: nat, i: nat)
    requires forall j :: 0 <= j <= k ==> i < |ReplyAt(polls, j).written|
    ensures Column(polls, k + 1, i) == Column(polls, k, i) + [ReplyAt(polls, k).written[i]]
  {
  }

  /** A receiver held after `k` polls was held after each earlier one. */
  lemma HeldEarlier(c0: seq<bool>, hangups: seq<set<nat>>, j: nat, k: nat)
    requires j <= k
    requires NoneDropped(LiveThrough(c0, hangups, k))
    ensures NoneDropped(LiveThrough(c0, hangups, j))
  {
    forall m | 0 <= m < |c0|
      ensures LiveThrough(c0, hangups, j)[m]
    {
      LiveMonotone(c0, hangups, j, k, m);
    }
  }

  /** Receivers all held at the start and never dropped stay held. */
  lemma {:induction false} AllHeld(c0: seq<bool>, hangups: seq<set<nat>>, k: nat)
    requires NoneDropped(c0)
    requires forall j, m :: 0 <= j < k && 0 <= m < |c0| ==> m !in HangupsAt(hangups, j)
    ensures NoneDropped(LiveThrough(c0, hangups, k))
  {
    if k > 0 {
      AllHeld(c0, hangups, k - 1);
    }
  }

  /** Every receiver is held, so a frame's fan-out sends on every queue. */
  predicate NoneDropped(connected: seq<bool>) {
    false !in connected
  }

  /** The first poll in `from..limit` whose fan-out finds a receiver gone, or
      `limit` when there is none. */
  function FirstLoss(c0: seq<bool>, hangups: seq<set<nat>>, from: nat, limit: nat): (h: nat)
    requires from <= limit
    ensures from <= h <= limit
    decreases limit - from
  {
    if from == limit || !NoneDropped(LiveThrough(c0, hangups, from + 1)) then from
    else FirstLoss(c0, hangups, from + 1, limit)
  }

  /** Every fan-out before the first loss finds all receivers held. */
  lemma {:induction false} HeldBeforeFirstLoss(c0: seq<bool>, hangups: seq<set<nat>>, from: nat, limit: nat, k: nat)
    requires from <= limit && from <= k < FirstLoss(c0, hangups, from, limit)
    ensures NoneDropped(LiveThrough(c0, hangups, k + 1))
    decreases limit - from
  {
    if from < k {
      HeldBeforeFirstLoss(c0, hangups, from + 1, limit, k);
    }
  }

  /** Poll `k`, reached without an earlier loss, is the first loss exactly when
      it ends the range or its fan-out finds a receiver gone. */
  lemma {:induction false} FirstLossStep(c0: seq<bool>, hangups: seq<set<nat>>, from: nat, limit: nat, k: nat)
    requires from <= limit && from <= k <= FirstLoss(c0, hangups, from, limit)
    ensures FirstLoss(c0, hangups, from, limit) == k
      <==> k == limit || !NoneDropped(LiveThrough(c0, hangups, k + 1))
    decreases limit - from
  {
    if from < k {
      FirstLossStep(c0, hangups, from + 1, limit, k);
    }
  }

  /** A worker that stops when a send fails polls at most once after a
      receiver is dropped: if receiver `j` is gone by the fan-out of poll `s`,
      the first lost fan-out is at poll `s` or earlier. */
  lemma LossNoLaterThanHangup(c0: seq<bool>, hangups: seq<set<nat>>, limit: nat, s: nat, j: nat)
    requires s < limit && j < |c0|
    requires !LiveThrough(c0, hangups, s + 1)[j]
    ensures FirstLoss(c0, hangups, 0, limit) <= s
  {
    if s < FirstLoss(c0, hangups, 0, limit) {
      HeldBeforeFirstLoss(c0, hangups, 0, limit, s);
    }
  }
}
