/** The per-record rule of the relay (touchmux.c `clampi`, `forward_event`):
    an absolute X-role or Y-role coordinate is scaled, truncated toward zero
    and clamped into `[0, max]`; every other record passes through. */
module Transform {
  import opened InputAbi

  /** `clampi(v, lo, hi)`. */
  function Clamp(v: int, lo: int, hi: int): (r: int)
    ensures lo <= hi ==> lo <= r <= hi
    ensures lo <= v <= hi ==> r == v
    ensures r == v || r == lo || r == hi
  {
    if v < lo then lo
    else if v > hi then hi
    else v
  }

  type Positive = n: int | n > 0 witness 1

  /** Division truncating toward zero, as C's conversion of a double to
      `int` does (Dafny's own `/` rounds toward negative infinity for a
      negative dividend). */
  function TruncDiv(p: int, d: Positive): (q: int)
    ensures 0 <= p ==> 0 <= q * d <= p < q * d + d
    ensures p < 0 ==> q * d - d < p <= q * d <= 0
  {
    if p >= 0 then
      var q := p / d;
      assert p == q * d + p % d;
      q
    else
      var q := (-p) / d;
      assert -p == q * d + (-p) % d;
      assert (-q) * d == -(q * d);
      -q
  }

  /** A scale factor, the exact rational `num / den` that the float
      `scale_x` or `scale_y` stands for (every finite float is one). */
  datatype Scale = Scale(num: int, den: Positive)

  const UnitScale: Scale := Scale(1, 1)

  /** `(int)((double)value * (double)scale)`. */
  function ScaleTrunc(v: int, s: Scale): (r: int)
    ensures s.num == s.den ==> r == v
    ensures 0 <= v && 0 <= s.num ==> 0 <= r
  {
    var p := v * s.num;
    assert 0 <= v && 0 <= s.num ==> 0 <= p;
    TruncDivExact(v, s.den);
    TruncDiv(p, s.den)
  }

  /** Truncating division undoes a multiplication. */
  lemma TruncDivExact(v: int, d: Positive)
    ensures TruncDiv(v * d, d) == v
  {
    var q := TruncDiv(v * d, d);
    var e := v - q;
    assert e * d == v * d - q * d;
  }

  /** The relay's configuration: the scale factors from the command line
      and the clamp bounds `max_x`, `max_y` left by capability mirroring. */
  datatype Config = Config(scaleX: Scale, scaleY: Scale, maxX: int32, maxY: int32)

  /** An absolute-axis record on an axis of the given role. */
  predicate OnRole(ev: InputEvent, role: Role)
  {
    ev.evType == EV_ABS && HasRole(ev.code, role)
  }

  /** `forward_event` without the write: the record that is emitted. */
  function Forward(ev: InputEvent, cfg: Config): (r: InputEvent)
    ensures r.evType == ev.evType && r.code == ev.code
    ensures !OnRole(ev, XRole) && !OnRole(ev, YRole) ==> r.value == ev.value
    ensures OnRole(ev, XRole) && 0 <= cfg.maxX ==> 0 <= r.value <= cfg.maxX
    ensures OnRole(ev, YRole) && 0 <= cfg.maxY ==> 0 <= r.value <= cfg.maxY
  {
    if ev.evType == EV_ABS then
      if ev.code == ABS_X || ev.code == ABS_MT_POSITION_X then
        ev.(value := Clamp(ScaleTrunc(ev.value, cfg.scaleX), 0, cfg.maxX))
      else if ev.code == ABS_Y || ev.code == ABS_MT_POSITION_Y then
        ev.(value := Clamp(ScaleTrunc(ev.value, cfg.scaleY), 0, cfg.maxY))
      else ev
    else ev
  }

  /** The scale of a role. */
  function ScaleOf(cfg: Config, role: Role): Scale
  {
    match role
    case XRole => cfg.scaleX
    case YRole => cfg.scaleY
  }

  /** The clamp bound of a role. */
  function MaxOf(cfg: Config, role: Role): int32
  {
    match role
    case XRole => cfg.maxX
    case YRole => cfg.maxY
  }

  /** With a unit scale, a coordinate already inside `[0, max]` is emitted
      unchanged. */
  lemma UnitScaleInRangeUnchanged(ev: InputEvent, cfg: Config, role: Role)
    requires OnRole(ev, role) && ScaleOf(cfg, role) == UnitScale
    requires 0 <= ev.value <= MaxOf(cfg, role)
    ensures Forward(ev, cfg) == ev
  {
  }

  /** A coordinate whose scaled value exceeds a nonnegative bound is emitted
      as the bound; one whose scaled value is negative is emitted as 0. */
  lemma OutOfRangeClamped(ev: InputEvent, cfg: Config, role: Role)
    requires OnRole(ev, role) && 0 <= MaxOf(cfg, role)
    ensures ScaleTrunc(ev.value, ScaleOf(cfg, role)) > MaxOf(cfg, role) ==> Forward(ev, cfg).value == MaxOf(cfg, role)
    ensures ScaleTrunc(ev.value, ScaleOf(cfg, role)) < 0 ==> Forward(ev, cfg).value == 0
  {
  }

  /** Any other scaled value inside `[0, max]` is emitted as it is. */
  lemma InRangeScaledKept(ev: InputEvent, cfg: Config, role: Role)
    requires OnRole(ev, role)
    requires 0 <= ScaleTrunc(ev.value, ScaleOf(cfg, role)) <= MaxOf(cfg, role)
    ensures Forward(ev, cfg).value == ScaleTrunc(ev.value, ScaleOf(cfg, role))
  {
  }
}
