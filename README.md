# touchmux, modelled in Dafny

touchmux is a small Linux/Android daemon. It opens a source evdev device and
creates a virtual uinput device that mirrors the source's capabilities: the
event types, the codes of each type, the axis ranges, and `INPUT_PROP_DIRECT`.
It then relays every input record from the source to the virtual device. On
the way, it can rescale the X and Y coordinates and clamp them into the
device's range.

The model covers the three deterministic parts of `touchmux.c`:

- **Capability mirroring** (`setup_uinput_from_src`, `test_bit`,
  `set_codebit`, `copy_abs_range`). It lives in module `CapabilityMirror`.
  - Two kinds of members describe the same steps. First, functions over
    values state declaratively what ends up registered and installed:
    `TypesUpTo`, `CodesUpTo`, `RoleMax` and `MirroredAxis`.
  - Second, the class `Mirror` carries out those steps imperatively. It
    holds:
    - the registration requests issued on the uinput descriptor;
    - the four `uinput_user_dev` axis arrays;
    - the globals `max_x` and `max_y`.
  - Its methods mirror the C loops, and their contracts tie each one to the
    functions above.
- **The record transform** (`clampi`, `forward_event`). It lives in module
  `Transform`.
- **The forwarding loop** in `main`. It lives in module `Forwarding`.
  - The loop runs over an abstract, finite stream of read outcomes: would
    block, short read, a whole record, or failure.
  - Module `TouchMux` composes setup and the loop.
  - It also proves one end-to-end touchscreen scenario.

Module `InputAbi` holds the Linux input ABI constants, with the values of
`linux/input-event-codes.h` written out. It also holds the record types.
Module `Bitmask` models the kernel's capability bitmaps as sequences of
64-bit words. It also holds the `test_bit` finding described below.

Each ioctl on the source is an input of the model. `EVIOCGBIT` and
`EVIOCGABS` answers are `Option` values, where `None` means the ioctl failed.
The sink's three fatal steps are booleans of a `SinkResponse`: open, write of
the descriptor, and `UI_DEV_CREATE`. The registrations are recorded as the
requests issued.

## Model

| member | source | states |
|---|---|---|
| Transform.Clamp | touchmux.c:34-38 | the result lies in `[lo, hi]` whenever `lo <= hi`; a value already in range is returned unchanged; the result is always `v`, `lo` or `hi` |
| Transform.TruncDiv | touchmux.c:49 | division by a positive denominator truncates toward zero: the quotient times the divisor lies between 0 and the dividend, less than one divisor away |
| Transform.TruncDivExact | touchmux.c:49 | truncating division undoes multiplication |
| Transform.ScaleTrunc | touchmux.c:49-52 | the scaled coordinate is the identity under a unit scale, and is nonnegative for a nonnegative value and scale |
| Transform.Forward | touchmux.c:43-58 | type and code are never changed; a record that is not an absolute X-role or Y-role coordinate keeps its value; when `max_x >= 0`, an X-role (ABS_X or ABS_MT_POSITION_X) value lands in `[0, max_x]` whatever the scaled intermediate, and likewise a Y-role value in `[0, max_y]` when `max_y >= 0` |
| Transform.UnitScaleInRangeUnchanged | touchmux.c:43-58 | with a unit scale, a coordinate already in `[0, max]` is forwarded unchanged |
| Transform.OutOfRangeClamped | touchmux.c:48-53 | a scaled coordinate above the bound is emitted as the bound, and a negative one as 0 |
| Transform.InRangeScaledKept | touchmux.c:48-53 | a scaled coordinate inside `[0, max]` is emitted as scaled |
| Bitmask.TestBit | touchmux.c:60-63 | `test_bit` as intended: bit `b % 64` of word `b / 64`, for an index inside the buffer; a definition, whose meaning on a kernel-filled bitmap `Encode` states |
| Bitmask.TestBitAsWritten | touchmux.c:60-63 | `test_bit` as written: the one-bit mask converted to `int` and tested against zero; a definition, related to `TestBit` by `AsWrittenLosesHighHalf` |
| Bitmask.Encode | touchmux.c:60-63 | in the bitmap the kernel fills for a code set, code `b` is bit `b % 64` of word `b / 64`, so `test_bit` is true exactly for the codes in the set |
| Bitmask.AsWrittenLosesHighHalf | touchmux.c:60-63 | `test_bit` as written, returning the mask through `int`, is true exactly when the bit is set AND lies in the low 32 bits of its word |
| Bitmask.AsWrittenMissesMtPositionX | touchmux.c:60-63 | for a device reporting only ABS_MT_POSITION_X (0x35), the bit is set, but `test_bit` as written reports it clear |
| CapabilityMirror.TypeCodesAsWritten | touchmux.c:136-139 | the inner loop with `test_bit` as written registers exactly the pairs `TypeCodes` gives whose code lies in the low 32 bits of its word |
| CapabilityMirror.TypesUpToAsWritten | touchmux.c:113-115 | the outer loop with `test_bit` as written registers the same types as with the corrected one, since every type code is below 32 |
| CapabilityMirror.CodesUpToAsWritten | touchmux.c:113-140 | the program as written registers exactly the pairs `CodesUpTo` gives whose code `c` has `c % 64 < 32` |
| CapabilityMirror.MaxCode | touchmux.c:118-130 | the probed maximum code is at most KEY_MAX, and it is nonzero exactly for the eight types `set_codebit` has a request for |
| CapabilityMirror.TypeCodes | touchmux.c:136-139 | with the corrected `test_bit`, the inner loop over codes `0 .. n-1` registers exactly the `(t, c)` whose bit is set |
| CapabilityMirror.TypesUpTo | touchmux.c:113-115 | with the corrected `test_bit`, the outer loop over types `0 .. n-1` registers exactly the types whose bit is set in `evbit` |
| CapabilityMirror.CodesUpTo | touchmux.c:113-140 | with the corrected `test_bit`, after types `0 .. n-1`, the registered pairs are exactly those where (1) the type bit is set, (2) the type has codes and a request, (3) its code query succeeded, and (4) the code is at most the type's maximum and its bit is set |
| CapabilityMirror.TypeWithoutCodes | touchmux.c:114-134 | a type is registered iff its bit is set; a type that is unreported, has no codes, or whose code query fails gets no codes |
| CapabilityMirror.RoleMax | touchmux.c:95-96 | after copying axes `0 .. n-1`, `max_x`/`max_y` holds the maximum of the multi-touch axis of its role if that was queried successfully; otherwise that of the legacy axis; otherwise its initial value |
| CapabilityMirror.Defaulted | touchmux.c:159-180 | the default writes never change fuzz or flat; an axis with maximum 0 gets `[0, max_x]` if it is ABS_X or ABS_MT_POSITION_X, `[0, max_y]` if it is ABS_Y or ABS_MT_POSITION_Y, and `[0, 9]` if it is ABS_MT_SLOT; every other axis, and any axis with a nonzero maximum, is unchanged |
| CapabilityMirror.MirroredAxis | touchmux.c:155-180 | the descriptor slot of an axis once setup is done: the copied range, then the default writes under the final `max_x`, `max_y`; a definition, whose cases the four lemmas below state |
| CapabilityMirror.ReportedAxisKept | touchmux.c:89-93 | a reported axis with a nonzero maximum is installed exactly as reported |
| CapabilityMirror.UnreportedAxisZero | touchmux.c:155-157 | an unreported axis that is not defaulted is installed as all zeros |
| CapabilityMirror.AbsentCoordinateAxis | touchmux.c:159-175 | an unreported coordinate axis gets `[0, M]`, where `M` is the other axis of its role's maximum if that axis is reported, and 1080 (X) or 2400 (Y) if it is not |
| CapabilityMirror.ZeroReportedCoordinateAxis | touchmux.c:159-175 | a coordinate axis reported with maximum 0 keeps its fuzz and flat and gets `[0, M]`, with `M` the final bound of its role |
| CapabilityMirror.SlotAxisDefault | touchmux.c:177-180 | a slot axis without a nonzero maximum gets `[0, 9]` |
| CapabilityMirror.SetupOutcome | touchmux.c:101-184 | setup creates the device exactly when uinput opens, the type query succeeds, the descriptor is written and `UI_DEV_CREATE` succeeds; otherwise it dies at the first of these steps to fail (lines 104, 110, 183, 184) |
| CapabilityMirror.Mirror.constructor | touchmux.c:41 | the program starts with nothing registered and `max_x`, `max_y` at 1080, 2400 |
| CapabilityMirror.Mirror.SetEvBit | touchmux.c:65-68 | the type is added to the registered types, nothing else changes |
| CapabilityMirror.Mirror.SetCodeBit | touchmux.c:70-84 | the pair is registered when the type has a request, and ignored otherwise |
| CapabilityMirror.Mirror.RegisterTypeCodes | touchmux.c:136-139 | the inner loop adds exactly `TypeCodes` for codes `0 .. max_code` to the registrations |
| CapabilityMirror.Mirror.RegisterType | touchmux.c:114-139 | one outer iteration registers the type iff its bit is set, and its codes only when it has codes and the query succeeded |
| CapabilityMirror.Mirror.RegisterCapabilities | touchmux.c:113-140 | the outer loop adds exactly the mirrored types and codes to the registrations |
| CapabilityMirror.Mirror.ClearDescriptor | touchmux.c:147 | every axis slot of the descriptor is zero |
| CapabilityMirror.Mirror.CopyAbsRange | touchmux.c:87-98 | only slot `code` changes, and only when the query succeeds, to the reported range; `max_x`/`max_y` change only on a successful X-role/Y-role query |
| CapabilityMirror.Mirror.CopyAbsRanges | touchmux.c:155-157 | every successfully queried slot holds its reported range, every other slot is as before, and `max_x`/`max_y` are `RoleMax` of the answers |
| CapabilityMirror.Mirror.InstallDefaults | touchmux.c:159-180 | each slot becomes `Defaulted` of its previous contents under the current `max_x`/`max_y` |
| CapabilityMirror.Mirror.Setup | touchmux.c:101-188 | setup fails at the first failing fatal step, in program order; once uinput is open and the type query succeeded, the registrations are exactly the mirrored ones, `INPUT_PROP_DIRECT` is set, the bounds are `RoleMax`, and every axis slot is `MirroredAxis`, with the corrected `test_bit`; when uinput opens but the type query fails, nothing is registered and the bounds are unchanged; the device is created iff no step failed |
| Forwarding.Relay | touchmux.c:225-236 | the loop dies iff some read fails, and writes at most one record per read |
| Forwarding.RelayForwardsFullRecords | touchmux.c:225-236 | over a stream with no failing read, the written records are exactly `forward_event` applied to the whole records, in order |
| Forwarding.RelayConcat | touchmux.c:225-236 | relaying a failure-free prefix and then the rest writes the same records as relaying the whole |
| Forwarding.RelaySkipsIdleReads | touchmux.c:228-232 | a would-block or short read anywhere in the stream changes nothing |
| Forwarding.RelayStopsAtFailure | touchmux.c:228-230 | the first failing read ends the loop, and no later record is written |
| Forwarding.ForwardLoop | touchmux.c:225-236 | the `for (;;)` loop writes exactly what `Relay` describes and is fatal exactly when `Relay` is |
| TouchMux.Run | touchmux.c:221-236 | the setup outcome is `SetupOutcome`; a failed setup reads nothing; otherwise the records written are `Relay` of the stream, with the final `max_x`, `max_y` of mirroring as bounds |
| TouchMux.TouchscreenScenario | touchmux.c:101-188 | on a touchscreen with ABS_X and ABS_MT_POSITION_X over `[0, 1023]`, with the corrected `test_bit`: exactly types {EV_SYN, EV_ABS} and the two axes are registered; `max_x` = 1023, `max_y` = 2400; ABS_MT_POSITION_Y gets `[0, 2400]`; with a scale of 2, X = 600 is sent as 1023; a SYN_REPORT passes unchanged |
| TouchMux.TouchscreenAsWrittenMissesMtAxis | touchmux.c:60-63 | on that touchscreen the program as written registers only (EV_ABS, ABS_X); ABS_MT_POSITION_X is lost |
| TouchMux.ZeroMtMaximumClampsToZero | touchmux.c:95-96 | a multi-touch axis reported with maximum 0 makes the bound of its role 0, even when the legacy axis reports a wider range, and every coordinate of that role is then emitted as 0 |

## Clamp bounds

`max_x` and `max_y` start at 1080 and 2400 (touchmux.c:41). Each successful
range query of an axis of their role overwrites them with that axis's
maximum (touchmux.c:95-96), and the queries run in ascending code order
(touchmux.c:155-157). An unreported coordinate axis then gets the final
bound of its role (touchmux.c:159-175): the maximum of the other axis of the
role when that one is reported, 1080 or 2400 otherwise
(`AbsentCoordinateAxis`). Two edge cases follow from this order:

- When both axes of a role report, the multi-touch axis wins: it has the
  higher code (`RoleMax`).
- A reported maximum of 0 also becomes the bound. With ABS_MT_POSITION_X
  reported as `[0, 0]` and ABS_X as `[0, 1023]`, `max_x` is 0 and every X
  coordinate is emitted as 0 (`ZeroMtMaximumClampsToZero`).

## Left out

- TypeCodes, TypesUpTo, CodesUpTo, MirroredCodes, Mirror.RegisterTypeCodes, Mirror.RegisterType, Mirror.RegisterCapabilities, Mirror.Setup, Run and TouchscreenScenario use the corrected `test_bit`. They describe the program with the finding below fixed. The program as written registers only the codes with `c % 64 < 32`. `CodesUpToAsWritten` states this at the level of the loops, and `TouchscreenAsWrittenMissesMtAxis` on one device.

- The system calls themselves are not modelled. This covers `open`, `ioctl`, `read`, `write`, `perror` and `die`/`exit`. Their outcomes are inputs of the model, and a fatal outcome is a `Fatal` result or a `fatal` flag.
- The fallback from `/dev/uinput` to `/dev/input/uinput` is not modelled. Both paths fold into `SinkResponse.opens`.
- A failing `UI_SET_EVBIT`, `UI_SET_*BIT` or `UI_SET_PROPBIT` is not modelled, because the program ignores it, or only logs it when verbose. The model records each request as issued.
- `emit`'s `clock_gettime` timestamp is not modelled. The record type has no time field.
- The `usleep` delays are not modelled, because they are timing, not logic.
- `emit`: a short or failed `write` to the sink is not modelled, so the sink is assumed to accept every relayed record. This failure would end the process.
- Double-precision scaling is modelled as an exact rational `Scale(num, den)`. The product is truncated toward zero like C's conversion to `int`. Rounding of the double product is not modelled. Neither is C's undefined behaviour when the product lies outside `int`. The clamp properties hold for any scaled value.
- `main`'s command-line parsing is not modelled. This covers `--src`, `--grab=`, `--verbose=`, `--sx=` and `--sy=`, `atoi`/`atof`, the usage message with exit status 2, opening the source, and `EVIOCGRAB`. `Run` takes the parsed scales as parameters.
- Verbose logging is not modelled.
- The fixed identity written into the descriptor is not modelled: name "touchmux-virtual", `BUS_VIRTUAL`, vendor 0x18D1, product 0x4EE1, version 1. The model records only the axis arrays.
- `Run` and `ForwardLoop` relay a finite stream of read outcomes rather than looping forever. Any prefix of the endless loop is covered.

## Findings

| source | as written | input that shows it | evidently intended | confidence | as-written member | corrected member |
|---|---|---|---|---|---|---|
| touchmux.c:60-63 | `test_bit` returns the 64-bit mask `bits[b/64] & (1UL << (b%64))` through an `int` result. On the LP64 target this keeps only the low 32 bits, so every bit with `b % 64 >= 32` reads as clear. | a source reporting ABS_MT_POSITION_X (code 0x35, bit 53 of word 0): its bit is set, but `test_bit` returns 0, so the axis is never registered (nor is any code 0x20-0x3f, or KEY code with `b % 64 >= 32`) | true exactly when bit `b % 64` of word `b / 64` is set | not executed | Bitmask.AsWrittenLosesHighHalf | Bitmask.Encode |
