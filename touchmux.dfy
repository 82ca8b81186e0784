/** touchmux.c `main` after its command line is parsed and the source is
    opened: mirror the source's capabilities onto a new uinput device, then
    relay every record read from the source through `forward_event`. */
module TouchMux {
  import opened InputAbi
  import opened Bitmask
  import opened Transform
  import opened CapabilityMirror
  import opened Forwarding

  /** The clamp configuration the relay runs with once setup has mirrored
      `src`: the command-line scales and the final `max_x`, `max_y`. */
  function RelayConfig(src: SourceDevice, scaleX: Scale, scaleY: Scale): Config
    requires WellFormed(src)
  {
    Config(scaleX, scaleY, FinalMax(src, XRole), FinalMax(src, YRole))
  }

  /** `setup_uinput_from_src` followed by the `for (;;)` loop. A failed
      setup ends the process before anything is read; otherwise the loop
      relays `stream` with the bounds that setup left in `max_x`, `max_y`. */
  method Run(src: SourceDevice, sink: SinkResponse, scaleX: Scale, scaleY: Scale, stream: seq<ReadOutcome>)
    returns (setup: SetupResult, out: seq<InputEvent>, fatal: bool)
    requires WellFormed(src)
    ensures setup == SetupOutcome(src, sink)
    ensures setup.Fatal? ==> out == [] && fatal
    ensures setup == Created ==> LoopResult(out, fatal) == Relay(stream, RelayConfig(src, scaleX, scaleY))
  {
    var m := new Mirror();
    setup := m.Setup(src, sink);
    if setup.Fatal? {
      return setup, [], true;
    }
    out, fatal := ForwardLoop(stream, Config(scaleX, scaleY, m.maxX, m.maxY));
  }

  /** A touchscreen that reports `EV_SYN` and `EV_ABS`, with the legacy X
      axis and the multi-touch X axis, both over `[0, 1023]`. */
  function Touchscreen(): SourceDevice
  {
    SourceDevice(
      Some(Encode({EV_SYN, EV_ABS}, EV_WORDS)),
      seq(EV_MAX + 1, t => if t == EV_ABS then Some(Encode({ABS_X, ABS_MT_POSITION_X}, CODE_WORDS)) else None),
      seq(ABS_CNT, c => if c == ABS_X || c == ABS_MT_POSITION_X then Some(AbsInfo(0, 1023, 0, 0)) else None))
  }

  /** On that touchscreen the sink gets exactly the two types and the two
      axes; X is clamped to the reported 1023 while Y keeps the built-in
      2400, and the Y axes, which the source lacks, get `[0, 2400]`; an X
      coordinate doubled past the range comes out as 1023, and a
      synchronisation record passes through. */
  lemma TouchscreenScenario()
    ensures WellFormed(Touchscreen())
    ensures MirroredTypes(Touchscreen()) == {EV_SYN, EV_ABS}
    ensures MirroredCodes(Touchscreen()) == {(EV_ABS, ABS_X), (EV_ABS, ABS_MT_POSITION_X)}
    ensures FinalMax(Touchscreen(), XRole) == 1023 && FinalMax(Touchscreen(), YRole) == 2400
    ensures MirroredAxis(Touchscreen(), ABS_MT_POSITION_Y, DEFAULT_MAX_X, DEFAULT_MAX_Y) == AbsInfo(0, 2400, 0, 0)
    ensures var cfg := RelayConfig(Touchscreen(), Scale(2, 1), UnitScale);
            && Forward(InputEvent(EV_ABS as uint16, ABS_X as uint16, 600), cfg) == InputEvent(EV_ABS as uint16, ABS_X as uint16, 1023)
            && Forward(InputEvent(EV_SYN as uint16, SYN_REPORT as uint16, 0), cfg) == InputEvent(EV_SYN as uint16, SYN_REPORT as uint16, 0)
  {
    var src := Touchscreen();
    assert WellFormed(src);
    var ev := src.evBits.value;
    assert ev == Encode({EV_SYN, EV_ABS}, EV_WORDS);
    assert EV_WORDS == 1 && CODE_WORDS == 12;
    assert forall t :: 0 <= t <= EV_MAX ==> (TestBit(ev, t) <==> t == EV_SYN || t == EV_ABS);
    var types := TypesUpTo(ev, EV_MAX + 1);
    assert forall t :: t in types <==> t == EV_SYN || t == EV_ABS;
    assert MirroredTypes(src) == types == {EV_SYN, EV_ABS};
    assert CodeMirrored(src, EV_ABS, ABS_X) && CodeMirrored(src, EV_ABS, ABS_MT_POSITION_X);
    assert MirroredCodes(src) == {(EV_ABS, ABS_X), (EV_ABS, ABS_MT_POSITION_X)};
    AbsentCoordinateAxis(src, ABS_MT_POSITION_Y, YRole);
    var cfg := RelayConfig(src, Scale(2, 1), UnitScale);
    OutOfRangeClamped(InputEvent(EV_ABS as uint16, ABS_X as uint16, 600), cfg, XRole);
  }

  /** The program as written registers only the legacy X axis of that
      touchscreen: ABS_MT_POSITION_X is bit 53 of its word, which the
      `int`-returning `test_bit` reads as clear. */
  lemma TouchscreenAsWrittenMissesMtAxis()
    ensures WellFormed(Touchscreen())
    ensures MirroredCodesAsWritten(Touchscreen()) == {(EV_ABS, ABS_X)}
  {
    TouchscreenScenario();
    var aw := MirroredCodesAsWritten(Touchscreen());
    assert forall p :: p in aw <==> p in MirroredCodes(Touchscreen()) && p.1 % WORD_BITS < 32;
    assert (EV_ABS, ABS_X) in aw;
    assert (EV_ABS, ABS_MT_POSITION_X) !in aw;
  }

  /** A multi-touch axis reported with maximum 0 becomes the clamp bound of
      its role, even when the legacy axis reports a wider range, and then
      every coordinate of that role is emitted as 0. */
  lemma ZeroMtMaximumClampsToZero(src: SourceDevice, role: Role, scaleX: Scale, scaleY: Scale)
    requires WellFormed(src)
    requires src.absInfo[MtCode(role)].Some? && src.absInfo[MtCode(role)].value.maximum == 0
    ensures FinalMax(src, role) == 0
    ensures forall ev :: OnRole(ev, role) ==> Forward(ev, RelayConfig(src, scaleX, scaleY)).value == 0
  {
    var cfg := RelayConfig(src, scaleX, scaleY);
    assert MaxOf(cfg, role) == 0;
  }
}
