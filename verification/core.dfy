/** The driver-facing core of daqhats (src/core/mod.rs): result codes and their
    decoding, board identifiers, and the scan option and scan status flag sets.

    The numeric values of the C library's constants are not part of this model:
    every function that compares against them takes a table of those constants,
    and the properties that need them to be distinct say so through the table's
    `Valid` predicate. */
module Core {

  /** An IEEE-754 binary64 value kept as its bit pattern. Samples, sample rates
      and timeouts are only ever passed through, never computed with. */
  datatype F64 = F64(bits: bv64)

  /** `0.0`, whose encoding is all zero bits. */
  const ZERO: F64 := F64(0)

  datatype Option<T> = None | Some(value: T)

  /** The failures the driver reports (mod.rs:43-53). */
  datatype ErrorCode =
    | BadParameter
    | Busy
    | Timeout
    | LockTimeout
    | InvalidDevice
    | ResourceUnavail
    | CommsFailure
    | Undefined

  /** `Result<T, ErrorCode>` */
  datatype Result<T> = Ok(value: T) | Err(error: ErrorCode)

  predicate IsI32(x: int) {
    -0x8000_0000 <= x < 0x8000_0000
  }

  /** The values of the driver's `ResultCode` constants. */
  datatype ResultCodes = ResultCodes(
    success: int,
    badParameter: int,
    busy: int,
    timeout: int,
    lockTimeout: int,
    invalidDevice: int,
    resourceUnavail: int,
    commsFailure: int,
    undefined: int)
  {
    /** The nine codes are distinct `i32` values. */
    ghost predicate Valid() {
      && IsI32(success)
      && (forall e :: IsI32(Discriminant(this, e)))
      && (forall e :: Discriminant(this, e) != success)
      && (forall e1, e2 :: Discriminant(this, e1) == Discriminant(this, e2) ==> e1 == e2)
    }
  }

  /** `e as i32`: the discriminant of each variant is its driver constant. */
  function Discriminant(t: ResultCodes, e: ErrorCode): int {
    match e
    case BadParameter => t.badParameter
    case Busy => t.busy
    case Timeout => t.timeout
    case LockTimeout => t.lockTimeout
    case InvalidDevice => t.invalidDevice
    case ResourceUnavail => t.resourceUnavail
    case CommsFailure => t.commsFailure
    case Undefined => t.undefined
  }

  /** A code one of the `ErrorCode` variants stands for. */
  predicate IsErrorCode(t: ResultCodes, code: int) {
    exists e :: Discriminant(t, e) == code
  }

  /** A code `result_c_to_rs` accepts without panicking. */
  predicate Known(t: ResultCodes, code: int) {
    code == t.success || IsErrorCode(t, code)
  }

  /** `ErrorCode::from(code)`: the variant whose constant is `code`, tried in
      declaration order. Any other code panics, hence the precondition. */
  function ErrorFromCode(t: ResultCodes, code: int): (e: ErrorCode)
    requires IsErrorCode(t, code)
    ensures Discriminant(t, e) == code
  {
    if code == t.badParameter then BadParameter
    else if code == t.busy then Busy
    else if code == t.timeout then Timeout
    else if code == t.lockTimeout then LockTimeout
    else if code == t.invalidDevice then InvalidDevice
    else if code == t.resourceUnavail then ResourceUnavail
    else if code == t.commsFailure then CommsFailure
    else Undefined
  }

  /** With distinct constants, decoding a variant's own discriminant gives the
      variant back: `ErrorCode::from(e as i32) == e`. */
  lemma ErrorCodeRoundTrip(t: ResultCodes, e: ErrorCode)
    requires t.Valid()
    ensures IsErrorCode(t, Discriminant(t, e))
    ensures ErrorFromCode(t, Discriminant(t, e)) == e
  {
  }

  /** With distinct constants, every error code is reached from exactly one variant. */
  lemma ErrorCodeOnto(t: ResultCodes, code: int)
    requires t.Valid() && IsErrorCode(t, code)
    ensures code != t.success
    ensures forall e :: Discriminant(t, e) == code <==> e == ErrorFromCode(t, code)
  {
  }

  /** `result_c_to_rs(code)`: success is `Ok(())`, anything else is the error
      that code decodes to. */
  function ResultCToRs(t: ResultCodes, code: int): (r: Result<()>)
    requires Known(t, code)
    ensures r.Ok? <==> code == t.success
    ensures r.Err? ==> Discriminant(t, r.error) == code
  {
    if code == t.success then Ok(()) else Err(ErrorFromCode(t, code))
  }

  /** `ErrorCode::message`: one sentence per variant. */
  function Message(e: ErrorCode): (m: string)
    ensures |m| > 0 && m[|m| - 1] == '.'
  {
    match e
    case BadParameter => "An incorrect parameter was passed to the function."
    case Busy => "The device is busy."
    case Timeout => "There was a timeout accessing a resource."
    case LockTimeout => "There was a timeout while obtaining a resource lock."
    case InvalidDevice => "The device at the specified address is not the correct type."
    case ResourceUnavail => "A needed resource was not available."
    case CommsFailure => "Could not communicate with the device."
    case Undefined => "Undefined error."
  }

  const DISPLAY_PREFIX: string := "daqhats error: "

  /** `impl Display for ErrorCode`: the crate's prefix, then the message. */
  function Display(e: ErrorCode): string {
    DISPLAY_PREFIX + Message(e)
  }

  /** The length of each message; no two are the same. */
  function MessageLength(e: ErrorCode): (n: nat)
    ensures n == |Message(e)|
  {
    match e
    case BadParameter => 50
    case Busy => 19
    case Timeout => 41
    case LockTimeout => 52
    case InvalidDevice => 60
    case ResourceUnavail => 36
    case CommsFailure => 38
    case Undefined => 16
  }

  /** Each variant has its own non-empty message. */
  lemma MessagesDistinct(e1: ErrorCode, e2: ErrorCode)
    ensures Message(e1) != ""
    ensures Message(e1) == Message(e2) ==> e1 == e2
  {
    // The eight messages all differ in length.
    assert MessageLength(e1) > 0;
    if Message(e1) == Message(e2) {
      assert MessageLength(e1) == MessageLength(e2);
      LengthsDistinct(e1, e2);
    }
  }

  lemma LengthsDistinct(e1: ErrorCode, e2: ErrorCode)
    requires MessageLength(e1) == MessageLength(e2)
    ensures e1 == e2
  {
  }

  /** A displayed error starts with the crate's prefix, and the rest of the
      text identifies the error. */
  lemma DisplayDeterminesError(e1: ErrorCode, e2: ErrorCode)
    ensures |DISPLAY_PREFIX| <= |Display(e1)| && Display(e1)[..|DISPLAY_PREFIX|] == DISPLAY_PREFIX
    ensures Display(e1) == Display(e2) ==> e1 == e2
  {
    assert Display(e1)[|DISPLAY_PREFIX|..] == Message(e1);
    assert Display(e2)[|DISPLAY_PREFIX|..] == Message(e2);
    if Display(e1) == Display(e2) {
      MessagesDistinct(e1, e2);
    }
  }

  /** Board identifiers (mod.rs:17-26). */
  datatype HatId = Any | Mcc118 | Mcc118Bootloader | Mcc128 | Mcc134 | Mcc152 | Mcc172

  /** The values of the driver's `HatIDs` constants (unsigned 32-bit). */
  datatype HatIds = HatIds(
    any: int,
    mcc118: int,
    mcc118Bootloader: int,
    mcc128: int,
    mcc134: int,
    mcc152: int,
    mcc172: int)
  {
    /** The seven identifiers are distinct and fit in the 16 bits the boards report. */
    ghost predicate Valid() {
      && (forall h :: 0 <= HatDiscriminant(this, h) < 0x1_0000)
      && (forall h1, h2 :: HatDiscriminant(this, h1) == HatDiscriminant(this, h2) ==> h1 == h2)
    }
  }

  /** The discriminant of each variant is its driver constant. */
  function HatDiscriminant(t: HatIds, h: HatId): int {
    match h
    case Any => t.any
    case Mcc118 => t.mcc118
    case Mcc118Bootloader => t.mcc118Bootloader
    case Mcc128 => t.mcc128
    case Mcc134 => t.mcc134
    case Mcc152 => t.mcc152
    case Mcc172 => t.mcc172
  }

  /** `h as u16`: the discriminant truncated to 16 bits. */
  function HatIdToU16(t: HatIds, h: HatId): (id: int)
    ensures 0 <= id < 0x1_0000
  {
    HatDiscriminant(t, h) % 0x1_0000
  }

  /** An identifier `HatId::from` maps to a variant. */
  predicate IsHatId(t: HatIds, id: int) {
    exists h :: HatDiscriminant(t, h) == id
  }

  /** `HatId::from(id)` for a `u16` id, compared as `u32` against the constants
      in declaration order. Any other id panics, hence the precondition. */
  function HatIdFromU16(t: HatIds, id: int): (h: HatId)
    requires 0 <= id < 0x1_0000
    requires IsHatId(t, id)
    ensures HatDiscriminant(t, h) == id
  {
    if id == t.any then Any
    else if id == t.mcc118 then Mcc118
    else if id == t.mcc118Bootloader then Mcc118Bootloader
    else if id == t.mcc128 then Mcc128
    else if id == t.mcc134 then Mcc134
    else if id == t.mcc152 then Mcc152
    else Mcc172
  }

  /** With distinct 16-bit constants, `HatId::from(h as u16) == h`. */
  lemma HatIdRoundTrip(t: HatIds, h: HatId)
    requires t.Valid()
    ensures IsHatId(t, HatIdToU16(t, h))
    ensures HatIdFromU16(t, HatIdToU16(t, h)) == h
  {
    assert HatIdToU16(t, h) == HatDiscriminant(t, h);
  }

  /** The flags of `ScanOptions` (mod.rs:114-123). */
  datatype OptionFlag = NoScaleData | NoCalibrateData | ExtClock | ExtTrigger | Continuous

  /** `core::ScanOptions`, the option set handed to the driver. */
  type OptionSet = set<OptionFlag>

  /** The four flags of `ScanStatus` (mod.rs:125-132). */
  datatype StatusFlag = HwOverrun | BufferOverrun | Triggered | Running

  /** `ScanStatus`, a snapshot of the scan's flags. */
  type ScanStatus = set<StatusFlag>

  /** `a.contains(b)`: every flag of `b` is set in `a`. */
  predicate Contains<F>(a: set<F>, b: set<F>) {
    b <= a
  }

  const ALL_FLAGS: set<StatusFlag> := {HwOverrun, BufferOverrun, Triggered, Running}

  /** A 16-bit status word as the set of positions of its 1 bits. */
  type StatusWord = set<nat>

  /** The bit position of each `STATUS_*` constant in the driver's status word. */
  datatype StatusBits = StatusBits(hwOverrun: nat, bufferOverrun: nat, triggered: nat, running: nat)
  {
    /** Each flag is a bit of the 16-bit word, and no two flags share one. */
    ghost predicate Valid() {
      && (forall f :: Position(this, f) < 16)
      && (forall f, g :: Position(this, f) == Position(this, g) ==> f == g)
    }
  }

  function Position(t: StatusBits, f: StatusFlag): nat {
    match f
    case HwOverrun => t.hwOverrun
    case BufferOverrun => t.bufferOverrun
    case Triggered => t.triggered
    case Running => t.running
  }

  /** `ScanStatus::all().bits()` */
  function AllBits(t: StatusBits): StatusWord {
    {t.hwOverrun, t.bufferOverrun, t.triggered, t.running}
  }

  /** `s.bits()`: the status word with the bits of the flags in `s`. */
  function ToBits(t: StatusBits, s: ScanStatus): (w: StatusWord)
    ensures w <= AllBits(t)
    ensures forall f :: f in s ==> Position(t, f) in w
    ensures t.Valid() ==> forall f :: Position(t, f) in w ==> f in s
  {
    set f | f in s :: Position(t, f)
  }

  /** The flags whose bit is set in `word`. */
  function FlagsOf(t: StatusBits, word: StatusWord): ScanStatus {
    set f | f in ALL_FLAGS && Position(t, f) in word
  }

  /** `ScanStatus::from_bits(word)`: `None` exactly when the word has a bit
      outside the four flags. */
  function FromBits(t: StatusBits, word: StatusWord): (r: Option<ScanStatus>)
    ensures r.None? <==> exists b :: b in word && b !in AllBits(t)
  {
    if word <= AllBits(t) then Some(FlagsOf(t, word)) else None
  }

  /** Encoding a flag set and decoding the word gives the set back. */
  lemma StatusRoundTrip(t: StatusBits, s: ScanStatus)
    requires t.Valid()
    ensures FromBits(t, ToBits(t, s)) == Some(s)
  {
    var w := ToBits(t, s);
    forall f | f in s ensures Position(t, f) in w && Position(t, f) in AllBits(t) { }
    assert w <= AllBits(t);
    forall f ensures f in FlagsOf(t, w) <==> f in s {
      assert f in ALL_FLAGS by { assert f.HwOverrun? || f.BufferOverrun? || f.Triggered? || f.Running?; }
      if f in FlagsOf(t, w) {
        var g :| g in s && Position(t, g) == Position(t, f);
      }
    }
    assert FlagsOf(t, w) == s;
  }

  /** Every word `from_bits` accepts is the encoding of the set it decodes to. */
  lemma StatusWordRoundTrip(t: StatusBits, word: StatusWord)
    requires FromBits(t, word).Some?
    ensures ToBits(t, FromBits(t, word).value) == word
  {
    var s := FromBits(t, word).value;
    forall b | b in word ensures b in ToBits(t, s) {
      var f :| f in ALL_FLAGS && Position(t, f) == b;
      assert f in s;
    }
  }

  /** On words `from_bits` accepts, `contains` on the words is inclusion of the
      decoded flag sets. */
  lemma {:induction false} ContainsIsSubset(t: StatusBits, a: StatusWord, b: StatusWord)
    requires FromBits(t, a).Some? && FromBits(t, b).Some?
    ensures (a * b == b) <==> Contains(FromBits(t, a).value, FromBits(t, b).value)
  {
    var sa, sb := FromBits(t, a).value, FromBits(t, b).value;
    if sb <= sa {
      forall x | x in b ensures x in a {
        var f :| f in ALL_FLAGS && Position(t, f) == x;
        assert f in sb;
      }
    }
  }
}
