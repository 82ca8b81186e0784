/** Capability mirroring (touchmux.c `setup_uinput_from_src`,
    `set_codebit`, `copy_abs_range`): every event type and code the source
    reports is registered on the uinput sink, the source's axis ranges are
    copied into the uinput descriptor, and the coordinate and slot axes get
    defaults when they are still missing a range. */
module CapabilityMirror {
  import opened InputAbi
  import opened Bitmask

  /** Words of the `evbit` buffer: one, for types `0 .. EV_MAX`. */
  const EV_WORDS: int := (EV_MAX + 1 + WORD_BITS - 1) / WORD_BITS

  /** Words of the `codebits` buffer, sized for the largest type: twelve,
      for codes `0 .. KEY_MAX`. */
  const CODE_WORDS: int := (KEY_MAX + 1 + WORD_BITS - 1) / WORD_BITS

  /** The initial values of the globals `max_x`, `max_y`. */
  const DEFAULT_MAX_X: int32 := 1080
  const DEFAULT_MAX_Y: int32 := 2400

  /** The slot range installed when the source reports none: ten contacts. */
  const MT_SLOT_MAX: int32 := 9

  function DefaultMax(role: Role): int32
  {
    match role
    case XRole => DEFAULT_MAX_X
    case YRole => DEFAULT_MAX_Y
  }

  /** The source device as the ioctls see it: the answer to
      `EVIOCGBIT(0, ...)` (None when that ioctl fails), the answer to
      `EVIOCGBIT(t, ...)` for every type `t` in `0 .. EV_MAX` (None when
      it fails), and the answer to `EVIOCGABS(code)` for every axis code in
      `0 .. ABS_MAX` (None when it fails). */
  datatype SourceDevice = SourceDevice(
    evBits: Option<Bitmask>,
    codeBits: seq<Option<Bitmask>>,
    absInfo: seq<Option<AbsInfo>>)

  /** The answers fill the fixed-size buffers the program passes. */
  predicate WellFormed(src: SourceDevice)
  {
    && (src.evBits.Some? ==> |src.evBits.value| == EV_WORDS)
    && |src.codeBits| == EV_MAX + 1
    && (forall t :: 0 <= t <= EV_MAX && src.codeBits[t].Some? ==> |src.codeBits[t].value| == CODE_WORDS)
    && |src.absInfo| == ABS_CNT
  }

  /** Whether `set_codebit` knows a `UI_SET_*BIT` request for type `t`. */
  predicate HasCodeRequest(t: int)
  {
    t == EV_KEY || t == EV_ABS || t == EV_REL || t == EV_MSC ||
    t == EV_SW || t == EV_LED || t == EV_SND || t == EV_FF
  }

  /** The largest code probed for type `t`; 0 means "no codes". */
  function MaxCode(t: int): (m: int)
    ensures 0 <= m <= KEY_MAX
    ensures m > 0 <==> HasCodeRequest(t)
  {
    if t == EV_KEY then KEY_MAX
    else if t == EV_REL then REL_MAX
    else if t == EV_ABS then ABS_MAX
    else if t == EV_MSC then MSC_MAX
    else if t == EV_SW then SW_MAX
    else if t == EV_LED then LED_MAX
    else if t == EV_SND then SND_MAX
    else if t == EV_FF then FF_MAX
    else 0
  }

  // ---------------------------------------------------------------------
  // Registration: what the two nested loops request of the sink.

  /** The codes of type `t` registered by the inner loop after it probed
      codes `0 .. n - 1` of `bits`: exactly the set ones. */
  function TypeCodes(bits: Bitmask, t: int, n: int): (r: set<(int, int)>)
    requires 0 <= n <= WORD_BITS * |bits|
    ensures forall p :: p in r <==> p.0 == t && 0 <= p.1 < n && TestBit(bits, p.1)
    decreases n
  {
    if n == 0 then {}
    else TypeCodes(bits, t, n - 1) + (if TestBit(bits, n - 1) then {(t, n - 1)} else {})
  }

  /** The types registered by the outer loop after it probed types
      `0 .. n - 1`: exactly the set bits of `evBits`, whatever later
      happens to their codes. */
  function TypesUpTo(evBits: Bitmask, n: int): (r: set<int>)
    requires 0 <= n <= WORD_BITS * |evBits|
    ensures forall t :: t in r <==> 0 <= t < n && TestBit(evBits, t)
    decreases n
  {
    if n == 0 then {}
    else TypesUpTo(evBits, n - 1) + (if TestBit(evBits, n - 1) then {n - 1} else {})
  }

  /** The conditions under which `(t, c)` ends up registered: the type is
      reported, it has codes and a request to register them, its code query
      succeeded, and the code is within range and reported. */
  predicate CodeMirrored(src: SourceDevice, t: int, c: int)
    requires WellFormed(src) && src.evBits.Some?
  {
    && 0 <= t <= EV_MAX && TestBit(src.evBits.value, t)
    && MaxCode(t) > 0 && HasCodeRequest(t)
    && src.codeBits[t].Some?
    && 0 <= c <= MaxCode(t) && TestBit(src.codeBits[t].value, c)
  }

  /** The codes one iteration of the outer loop registers for type `t`. */
  function TypeStep(src: SourceDevice, t: int): set<(int, int)>
    requires WellFormed(src) && src.evBits.Some? && 0 <= t <= EV_MAX
  {
    if TestBit(src.evBits.value, t) && MaxCode(t) > 0 && src.codeBits[t].Some?
    then TypeCodes(src.codeBits[t].value, t, MaxCode(t) + 1)
    else {}
  }

  /** The codes registered after the outer loop probed types `0 .. n - 1`. */
  function CodesUpTo(src: SourceDevice, n: int): (r: set<(int, int)>)
    requires WellFormed(src) && src.evBits.Some? && 0 <= n <= EV_MAX + 1
    ensures forall p :: p in r <==> 0 <= p.0 < n && CodeMirrored(src, p.0, p.1)
    decreases n
  {
    if n == 0 then {}
    else CodesUpTo(src, n - 1) + TypeStep(src, n - 1)
  }

  function MirroredTypes(src: SourceDevice): set<int>
    requires WellFormed(src) && src.evBits.Some?
  {
    TypesUpTo(src.evBits.value, EV_MAX + 1)
  }

  function MirroredCodes(src: SourceDevice): set<(int, int)>
    requires WellFormed(src) && src.evBits.Some?
  {
    CodesUpTo(src, EV_MAX + 1)
  }

  // ---------------------------------------------------------------------
  // Registration as the program is written: both loops test bits through
  // the `int`-returning `test_bit`, which loses bits 32..63 of each word.

  /** The inner loop over codes `0 .. n - 1` with the as-written `test_bit`:
      the corrected registrations, less every code in the high half of its
      word. */
  function TypeCodesAsWritten(bits: Bitmask, t: int, n: int): (r: set<(int, int)>)
    requires 0 <= n <= WORD_BITS * |bits|
    ensures forall p :: p in r <==> p in TypeCodes(bits, t, n) && p.1 % WORD_BITS < 32
    decreases n
  {
    if n == 0 then {}
    else
      AsWrittenLosesHighHalf(bits, n - 1);
      TypeCodesAsWritten(bits, t, n - 1) + (if TestBitAsWritten(bits, n - 1) then {(t, n - 1)} else {})
  }

  /** The outer loop over types `0 .. n - 1` with the as-written `test_bit`:
      every type code lies in the low half of the single `evbit` word, so
      the registered types are the corrected ones. */
  function TypesUpToAsWritten(evBits: Bitmask, n: int): (r: set<int>)
    requires 0 <= n <= 32 && n <= WORD_BITS * |evBits|
    ensures r == TypesUpTo(evBits, n)
    decreases n
  {
    if n == 0 then {}
    else
      AsWrittenLosesHighHalf(evBits, n - 1);
      TypesUpToAsWritten(evBits, n - 1) + (if TestBitAsWritten(evBits, n - 1) then {n - 1} else {})
  }

  /** One outer iteration for type `t` with the as-written `test_bit`. */
  function TypeStepAsWritten(src: SourceDevice, t: int): set<(int, int)>
    requires WellFormed(src) && src.evBits.Some? && 0 <= t <= EV_MAX
  {
    if TestBitAsWritten(src.evBits.value, t) && MaxCode(t) > 0 && src.codeBits[t].Some?
    then TypeCodesAsWritten(src.codeBits[t].value, t, MaxCode(t) + 1)
    else {}
  }

  /** The codes the program as written registers after types `0 .. n - 1`:
      the corrected registrations, less every code `c` with `c % 64 >= 32`. */
  function CodesUpToAsWritten(src: SourceDevice, n: int): (r: set<(int, int)>)
    requires WellFormed(src) && src.evBits.Some? && 0 <= n <= EV_MAX + 1
    ensures forall p :: p in r <==> p in CodesUpTo(src, n) && p.1 % WORD_BITS < 32
    decreases n
  {
    if n == 0 then {}
    else
      AsWrittenLosesHighHalf(src.evBits.value, n - 1);
      CodesUpToAsWritten(src, n - 1) + TypeStepAsWritten(src, n - 1)
  }

  function MirroredCodesAsWritten(src: SourceDevice): set<(int, int)>
    requires WellFormed(src) && src.evBits.Some?
  {
    CodesUpToAsWritten(src, EV_MAX + 1)
  }

  /** A type is registered exactly when its bit is set, whether or not its
      codes are; a type that is not reported, that has no codes, or whose
      code query failed gets no code registered. */
  lemma TypeWithoutCodes(src: SourceDevice, t: int)
    requires WellFormed(src) && src.evBits.Some? && 0 <= t <= EV_MAX
    requires !TestBit(src.evBits.value, t) || MaxCode(t) == 0 || src.codeBits[t].None?
    ensures t in MirroredTypes(src) <==> TestBit(src.evBits.value, t)
    ensures forall c :: (t, c) !in MirroredCodes(src)
  {
  }

  // ---------------------------------------------------------------------
  // The axis table and the clamp bounds.

  /** A zeroed descriptor slot after `copy_abs_range`. */
  function CopiedAxis(info: Option<AbsInfo>): AbsInfo
  {
    match info
    case Some(a) => a
    case None => AbsInfo(0, 0, 0, 0)
  }

  /** `max_x` (XRole) or `max_y` (YRole) after `copy_abs_range` ran for
      codes `0 .. n - 1`, starting from `init`: the maximum of the last
      successful query on an axis of that role, so the multi-touch axis
      wins over the legacy one, and `init` when neither answered. */
  function RoleMax(infos: seq<Option<AbsInfo>>, role: Role, n: int, init: int32): (m: int32)
    requires 0 <= n <= |infos|
    ensures m == (if MtCode(role) < n && infos[MtCode(role)].Some? then infos[MtCode(role)].value.maximum
                  else if LegacyCode(role) < n && infos[LegacyCode(role)].Some? then infos[LegacyCode(role)].value.maximum
                  else init)
    decreases n
  {
    if n == 0 then init
    else if HasRole(n - 1, role) && infos[n - 1].Some? then infos[n - 1].value.maximum
    else RoleMax(infos, role, n - 1, init)
  }

  /** The clamp bound of a role once mirroring is done. */
  function FinalMax(src: SourceDevice, role: Role): int32
    requires WellFormed(src)
  {
    RoleMax(src.absInfo, role, ABS_CNT, DefaultMax(role))
  }

  predicate IsDefaultedCode(code: int)
  {
    IsPositionCode(code) || code == ABS_MT_SLOT
  }

  /** An axis after the default writes of touchmux.c:159-180. */
  function Defaulted(a: AbsInfo, code: int, maxX: int32, maxY: int32): (r: AbsInfo)
    ensures r.fuzz == a.fuzz && r.flat == a.flat
    ensures a.maximum != 0 || !IsDefaultedCode(code) ==> r == a
    ensures a.maximum == 0 && HasRole(code, XRole) ==> r == a.(minimum := 0, maximum := maxX)
    ensures a.maximum == 0 && HasRole(code, YRole) ==> r == a.(minimum := 0, maximum := maxY)
    ensures a.maximum == 0 && code == ABS_MT_SLOT ==> r == a.(minimum := 0, maximum := MT_SLOT_MAX)
  {
    if a.maximum != 0 then a
    else if HasRole(code, XRole) then a.(minimum := 0, maximum := maxX)
    else if HasRole(code, YRole) then a.(minimum := 0, maximum := maxY)
    else if code == ABS_MT_SLOT then a.(minimum := 0, maximum := MT_SLOT_MAX)
    else a
  }

  /** The descriptor's axis `code` once mirroring is done, when `max_x`,
      `max_y` started at `initX`, `initY`. */
  function MirroredAxis(src: SourceDevice, code: int, initX: int32, initY: int32): AbsInfo
    requires WellFormed(src) && 0 <= code < ABS_CNT
  {
    Defaulted(CopiedAxis(src.absInfo[code]), code,
              RoleMax(src.absInfo, XRole, ABS_CNT, initX),
              RoleMax(src.absInfo, YRole, ABS_CNT, initY))
  }

  /** A reported axis with a nonzero maximum is installed as reported. */
  lemma ReportedAxisKept(src: SourceDevice, code: int, initX: int32, initY: int32)
    requires WellFormed(src) && 0 <= code < ABS_CNT
    requires src.absInfo[code].Some? && src.absInfo[code].value.maximum != 0
    ensures MirroredAxis(src, code, initX, initY) == src.absInfo[code].value
  {
  }

  /** An axis the source does not report, and that is neither a coordinate
      nor the slot axis, is installed as all zeros. */
  lemma UnreportedAxisZero(src: SourceDevice, code: int, initX: int32, initY: int32)
    requires WellFormed(src) && 0 <= code < ABS_CNT
    requires src.absInfo[code].None? && !IsDefaultedCode(code)
    ensures MirroredAxis(src, code, initX, initY) == AbsInfo(0, 0, 0, 0)
  {
  }

  /** A coordinate axis the source does not report gets `[0, M]`, where M
      is the maximum of the other axis of its role when that one is
      reported, and the built-in default (1080 for X, 2400 for Y) when it
      is not. */
  lemma AbsentCoordinateAxis(src: SourceDevice, code: int, role: Role)
    requires WellFormed(src) && HasRole(code, role) && src.absInfo[code].None?
    ensures var other := if code == LegacyCode(role) then MtCode(role) else LegacyCode(role);
            MirroredAxis(src, code, DEFAULT_MAX_X, DEFAULT_MAX_Y)
            == AbsInfo(0, if src.absInfo[other].Some? then src.absInfo[other].value.maximum else DefaultMax(role), 0, 0)
  {
    assert RoleMax(src.absInfo, role, ABS_CNT, DefaultMax(role)) == FinalMax(src, role);
  }

  /** A coordinate axis the source reports with maximum 0 keeps its fuzz
      and flat and gets `[0, M]`, with M the final bound of its role. */
  lemma ZeroReportedCoordinateAxis(src: SourceDevice, code: int, role: Role)
    requires WellFormed(src) && HasRole(code, role)
    requires src.absInfo[code].Some? && src.absInfo[code].value.maximum == 0
    ensures MirroredAxis(src, code, DEFAULT_MAX_X, DEFAULT_MAX_Y)
            == src.absInfo[code].value.(minimum := 0, maximum := FinalMax(src, role))
  {
  }

  /** The slot axis gets `[0, 9]` when the source reports no range for it. */
  lemma SlotAxisDefault(src: SourceDevice, initX: int32, initY: int32)
    requires WellFormed(src)
    requires src.absInfo[ABS_MT_SLOT].None? || src.absInfo[ABS_MT_SLOT].value.maximum == 0
    ensures var a := MirroredAxis(src, ABS_MT_SLOT, initX, initY);
            a.minimum == 0 && a.maximum == MT_SLOT_MAX
  {
  }

  // ---------------------------------------------------------------------
  // The imperative setup.

  /** What the sink does with the three steps that can fail fatally:
      opening `/dev/uinput` (or `/dev/input/uinput`), writing the
      descriptor, and `UI_DEV_CREATE`. */
  datatype SinkResponse = SinkResponse(opens: bool, acceptsDescriptor: bool, creates: bool)

  /** The step `die` names when setup fails. */
  datatype SetupError = OpenUinput | QueryEventTypes | WriteDescriptor | CreateDevice

  datatype SetupResult = Created | Fatal(error: SetupError)

  /** The first step of setup that fails, in program order. */
  function SetupOutcome(src: SourceDevice, sink: SinkResponse): (r: SetupResult)
    ensures r == Created <==> sink.opens && src.evBits.Some? && sink.acceptsDescriptor && sink.creates
    ensures r == Fatal(OpenUinput) <==> !sink.opens
    ensures r == Fatal(QueryEventTypes) <==> sink.opens && src.evBits.None?
    ensures r == Fatal(WriteDescriptor) <==> sink.opens && src.evBits.Some? && !sink.acceptsDescriptor
    ensures r == Fatal(CreateDevice) <==> sink.opens && src.evBits.Some? && sink.acceptsDescriptor && !sink.creates
  {
    if !sink.opens then Fatal(OpenUinput)
    else if src.evBits.None? then Fatal(QueryEventTypes)
    else if !sink.acceptsDescriptor then Fatal(WriteDescriptor)
    else if !sink.creates then Fatal(CreateDevice)
    else Created
  }

  /** The program's state during setup: the registration requests issued on
      the uinput file descriptor, the `uinput_user_dev` axis arrays, and
      the globals `max_x`, `max_y`. */
  class Mirror {
    /** Types requested with `UI_SET_EVBIT`. */
    var evTypes: set<int>
    /** `(type, code)` pairs requested with the `UI_SET_*BIT` of the type. */
    var codes: set<(int, int)>
    /** `INPUT_PROP_DIRECT` requested with `UI_SET_PROPBIT`. */
    var direct: bool
    /** `UI_DEV_CREATE` succeeded. */
    var created: bool

    const absmin: array<int32>
    const absmax: array<int32>
    const absfuzz: array<int32>
    const absflat: array<int32>

    var maxX: int32
    var maxY: int32

    ghost predicate Valid()
      reads this
    {
      && absmin.Length == ABS_CNT && absmax.Length == ABS_CNT
      && absfuzz.Length == ABS_CNT && absflat.Length == ABS_CNT
      && absmin != absmax && absmin != absfuzz && absmin != absflat
      && absmax != absfuzz && absmax != absflat && absfuzz != absflat
    }

    /** Slot `code` of the descriptor's four axis arrays. */
    function Axis(code: int): AbsInfo
      reads this, absmin, absmax, absfuzz, absflat
      requires Valid() && 0 <= code < ABS_CNT
    {
      AbsInfo(absmin[code], absmax[code], absfuzz[code], absflat[code])
    }

    /** The program as it starts: nothing registered, the globals at their
        initial values. */
    constructor ()
      ensures Valid()
      ensures fresh(absmin) && fresh(absmax) && fresh(absfuzz) && fresh(absflat)
      ensures evTypes == {} && codes == {} && !direct && !created
      ensures maxX == DEFAULT_MAX_X && maxY == DEFAULT_MAX_Y
    {
      absmin := new int32[ABS_CNT](i => 0);
      absmax := new int32[ABS_CNT](i => 0);
      absfuzz := new int32[ABS_CNT](i => 0);
      absflat := new int32[ABS_CNT](i => 0);
      evTypes, codes, direct, created := {}, {}, false, false;
      maxX, maxY := DEFAULT_MAX_X, DEFAULT_MAX_Y;
    }

    /** `set_evbit`. */
    method SetEvBit(t: int)
      modifies this`evTypes
      ensures evTypes == old(evTypes) + {t}
    {
      evTypes := evTypes + {t};
    }

    /** `set_codebit`: a type without a request is ignored. */
    method SetCodeBit(t: int, c: int)
      modifies this`codes
      ensures codes == if HasCodeRequest(t) then old(codes) + {(t, c)} else old(codes)
    {
      if HasCodeRequest(t) {
        codes := codes + {(t, c)};
      }
    }

    /** The inner loop, touchmux.c:136-139. */
    method RegisterTypeCodes(t: int, bits: Bitmask)
      requires MaxCode(t) > 0 && |bits| == CODE_WORDS
      modifies this`codes
      ensures codes == old(codes) + TypeCodes(bits, t, MaxCode(t) + 1)
    {
      var maxCode := MaxCode(t);
      for c := 0 to maxCode + 1
        invariant codes == old(codes) + TypeCodes(bits, t, c)
      {
        if TestBit(bits, c) {
          SetCodeBit(t, c);
        }
      }
    }

    /** One iteration of the outer loop, touchmux.c:114-139, for type `t`. */
    method RegisterType(src: SourceDevice, t: int)
      requires WellFormed(src) && src.evBits.Some? && 0 <= t <= EV_MAX
      modifies this`evTypes, this`codes
      ensures evTypes == old(evTypes) + (if TestBit(src.evBits.value, t) then {t} else {})
      ensures codes == old(codes) + TypeStep(src, t)
    {
      if !TestBit(src.evBits.value, t) {
        return;
      }
      SetEvBit(t);
      var maxCode := MaxCode(t);
      if maxCode <= 0 {
        return;
      }
      match src.codeBits[t]
      case None =>
      case Some(bits) =>
        RegisterTypeCodes(t, bits);
    }

    /** The outer loop, touchmux.c:113-140. */
    method RegisterCapabilities(src: SourceDevice)
      requires WellFormed(src) && src.evBits.Some?
      modifies this`evTypes, this`codes
      ensures evTypes == old(evTypes) + MirroredTypes(src)
      ensures codes == old(codes) + MirroredCodes(src)
    {
      for t := 0 to EV_MAX + 1
        invariant evTypes == old(evTypes) + TypesUpTo(src.evBits.value, t)
        invariant codes == old(codes) + CodesUpTo(src, t)
      {
        RegisterType(src, t);
      }
    }

    /** The `memset` of the descriptor. */
    method ClearDescriptor()
      requires Valid()
      modifies absmin, absmax, absfuzz, absflat
      ensures forall i :: 0 <= i < ABS_CNT ==> Axis(i) == AbsInfo(0, 0, 0, 0)
    {
      for i := 0 to ABS_CNT
        invariant forall k :: 0 <= k < i ==> Axis(k) == AbsInfo(0, 0, 0, 0)
      {
        absmin[i], absmax[i], absfuzz[i], absflat[i] := 0, 0, 0, 0;
      }
    }

    /** `copy_abs_range` with the outcome `info` of `EVIOCGABS(code)`: only
        slot `code` changes, and only when the query succeeded. */
    method CopyAbsRange(info: Option<AbsInfo>, code: int)
      requires Valid() && 0 <= code < ABS_CNT
      modifies absmin, absmax, absfuzz, absflat, this`maxX, this`maxY
      ensures forall i :: 0 <= i < ABS_CNT ==>
        Axis(i) == if i == code && info.Some? then info.value else old(Axis(i))
      ensures maxX == if info.Some? && HasRole(code, XRole) then info.value.maximum else old(maxX)
      ensures maxY == if info.Some? && HasRole(code, YRole) then info.value.maximum else old(maxY)
    {
      match info
      case None =>
      case Some(ai) =>
        absmin[code] := ai.minimum;
        absmax[code] := ai.maximum;
        absfuzz[code] := ai.fuzz;
        absflat[code] := ai.flat;
        if code == ABS_X || code == ABS_MT_POSITION_X {
          maxX := ai.maximum;
        }
        if code == ABS_Y || code == ABS_MT_POSITION_Y {
          maxY := ai.maximum;
        }
    }

    /** The loop at touchmux.c:155-157, with `infos[code]` the outcome of
        `EVIOCGABS(code)`. */
    method CopyAbsRanges(infos: seq<Option<AbsInfo>>)
      requires Valid() && |infos| == ABS_CNT
      modifies absmin, absmax, absfuzz, absflat, this`maxX, this`maxY
      ensures forall i :: 0 <= i < ABS_CNT ==>
        Axis(i) == if infos[i].Some? then infos[i].value else old(Axis(i))
      ensures maxX == RoleMax(infos, XRole, ABS_CNT, old(maxX))
      ensures maxY == RoleMax(infos, YRole, ABS_CNT, old(maxY))
    {
      for code := 0 to ABS_CNT
        invariant forall i :: 0 <= i < code ==>
          Axis(i) == if infos[i].Some? then infos[i].value else old(Axis(i))
        invariant forall i :: code <= i < ABS_CNT ==> Axis(i) == old(Axis(i))
        invariant maxX == RoleMax(infos, XRole, code, old(maxX))
        invariant maxY == RoleMax(infos, YRole, code, old(maxY))
      {
        CopyAbsRange(infos[code], code);
      }
    }

    /** The default writes of touchmux.c:159-180. */
    method InstallDefaults()
      requires Valid()
      modifies absmin, absmax
      ensures forall i :: 0 <= i < ABS_CNT ==> Axis(i) == Defaulted(old(Axis(i)), i, maxX, maxY)
    {
      if absmax[ABS_MT_POSITION_X] == 0 {
        absmin[ABS_MT_POSITION_X] := 0;
        absmax[ABS_MT_POSITION_X] := maxX;
      }
      if absmax[ABS_MT_POSITION_Y] == 0 {
        absmin[ABS_MT_POSITION_Y] := 0;
        absmax[ABS_MT_POSITION_Y] := maxY;
      }
      if absmax[ABS_X] == 0 {
        absmin[ABS_X] := 0;
        absmax[ABS_X] := maxX;
      }
      if absmax[ABS_Y] == 0 {
        absmin[ABS_Y] := 0;
        absmax[ABS_Y] := maxY;
      }
      if absmax[ABS_MT_SLOT] == 0 {
        absmin[ABS_MT_SLOT] := 0;
        absmax[ABS_MT_SLOT] := MT_SLOT_MAX;
      }
    }

    /** `setup_uinput_from_src`. A fatal step ends setup at once; once the
        sink is open and the type query succeeded, the registrations, the
        axis table and the clamp bounds are the mirrored ones. */
    method Setup(src: SourceDevice, sink: SinkResponse) returns (res: SetupResult)
      requires Valid() && WellFormed(src)
      modifies this, absmin, absmax, absfuzz, absflat
      ensures Valid()
      ensures res == SetupOutcome(src, sink)
      ensures created <==> res == Created
      ensures !sink.opens ==> maxX == old(maxX) && maxY == old(maxY)
      ensures sink.opens && src.evBits.None? ==>
        evTypes == {} && codes == {} && !direct && maxX == old(maxX) && maxY == old(maxY)
      ensures sink.opens && src.evBits.Some? ==>
        && evTypes == MirroredTypes(src)
        && codes == MirroredCodes(src)
        && direct
        && maxX == RoleMax(src.absInfo, XRole, ABS_CNT, old(maxX))
        && maxY == RoleMax(src.absInfo, YRole, ABS_CNT, old(maxY))
        && forall i :: 0 <= i < ABS_CNT ==> Axis(i) == MirroredAxis(src, i, old(maxX), old(maxY))
    {
      if !sink.opens {
        created := false;
        return Fatal(OpenUinput);
      }
      // A freshly opened uinput descriptor has nothing registered.
      evTypes, codes, direct, created := {}, {}, false, false;
      if src.evBits.None? {
        return Fatal(QueryEventTypes);
      }
      RegisterCapabilities(src);
      direct := true;
      ClearDescriptor();
      CopyAbsRanges(src.absInfo);
      InstallDefaults();
      if !sink.acceptsDescriptor {
        return Fatal(WriteDescriptor);
      }
      if !sink.creates {
        return Fatal(CreateDevice);
      }
      created := true;
      res := Created;
    }
  }
}
