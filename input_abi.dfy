/** The parts of the Linux input ABI that touchmux relies on: event types,
    the maximum code of each type, the axis codes with a special role, the
    event record and the per-axis range record (linux/input-event-codes.h,
    linux/input.h). */
module InputAbi {

  /** C `int` / `__s32`. */
  type int32 = x: int | -0x8000_0000 <= x < 0x8000_0000

  /** C `unsigned short` / `__u16`. */
  type uint16 = x: int | 0 <= x < 0x1_0000

  datatype Option<T> = None | Some(value: T)

  // Event types.
  const EV_SYN: int := 0x00
  const EV_KEY: int := 0x01
  const EV_REL: int := 0x02
  const EV_ABS: int := 0x03
  const EV_MSC: int := 0x04
  const EV_SW: int := 0x05
  const EV_LED: int := 0x11
  const EV_SND: int := 0x12
  const EV_FF: int := 0x15
  const EV_MAX: int := 0x1f

  // Largest code of each type that has codes.
  const KEY_MAX: int := 0x2ff
  const REL_MAX: int := 0x0f
  const ABS_MAX: int := 0x3f
  const MSC_MAX: int := 0x07
  const SW_MAX: int := 0x10
  const LED_MAX: int := 0x0f
  const SND_MAX: int := 0x07
  const FF_MAX: int := 0x7f

  /** Number of absolute axes, the length of the uinput_user_dev axis arrays. */
  const ABS_CNT: int := ABS_MAX + 1

  // Axis codes with a role in touchmux.
  const ABS_X: int := 0x00
  const ABS_Y: int := 0x01
  const ABS_MT_SLOT: int := 0x2f
  const ABS_MT_POSITION_X: int := 0x35
  const ABS_MT_POSITION_Y: int := 0x36

  const SYN_REPORT: int := 0

  /** One struct input_event; the timestamp is not modelled (the relay
      replaces it by a fresh monotonic time). */
  datatype InputEvent = InputEvent(evType: uint16, code: uint16, value: int32)

  /** The four fields of struct input_absinfo that touchmux copies. */
  datatype AbsInfo = AbsInfo(minimum: int32, maximum: int32, fuzz: int32, flat: int32)

  /** The two coordinate roles: an axis is X-role or Y-role. */
  datatype Role = XRole | YRole

  /** The legacy single-touch axis of a role. */
  function LegacyCode(role: Role): int
  {
    match role
    case XRole => ABS_X
    case YRole => ABS_Y
  }

  /** The multi-touch axis of a role. */
  function MtCode(role: Role): int
  {
    match role
    case XRole => ABS_MT_POSITION_X
    case YRole => ABS_MT_POSITION_Y
  }

  predicate HasRole(code: int, role: Role)
  {
    code == LegacyCode(role) || code == MtCode(role)
  }

  /** The four axes whose range touchmux defaults and whose values it rescales. */
  predicate IsPositionCode(code: int)
  {
    HasRole(code, XRole) || HasRole(code, YRole)
  }
}
