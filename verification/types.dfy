/** Machine integer ranges, the failure vocabulary and the small wrappers shared
    by every part of the oven-controller model. */
module Types {

  /** Rust's unsigned integer types, as ranges of the unbounded `int`. */
  type u8 = x: int | 0 <= x < 0x100
  type u16 = x: int | 0 <= x < 0x1_0000
  type u64 = x: int | 0 <= x < 0x1_0000_0000_0000_0000
  type u128 = x: int | 0 <= x < 0x1_0000_0000_0000_0000_0000_0000_0000_0000

  const U8_MAX: u8 := 0xFF
  const U16_MAX: u16 := 0xFFFF
  const U128_MAX: u128 := 0xFFFF_FFFF_FFFF_FFFF_FFFF_FFFF_FFFF_FFFF

  datatype Option<T> = None | Some(value: T)

  /** The direction reported by the rotary-encoder collaborator for one detent. */
  datatype Direction = Clockwise | CounterClockwise

  /** Every way the firmware panics. A Rust index out of bounds, an `unwrap` of
      `None`, an unsigned subtraction that would go below zero, a division by zero
      and an addition past the type's maximum all stop the program; the model
      reports which one as a `Fault` instead of a next state. */
  datatype Fault =
    // control loop
    | SlotIndexOutOfBounds        // `profiles.profiles[counter]` in the run-selection renderer, counter >= 16
    | RunSlotIndexOutOfBounds     // `profiles.profiles[run_profile_idx]`, index >= 16
    | EmptySlotUnwrap             // `unwrap()` of the empty slot chosen to run
    | SegmentIndexOutOfBounds     // `profile.points[current_pt + 1]`, index >= 6
    | ElapsedUnderflow            // `time - current_start_time` below zero
    | TempDeltaUnderflow          // `next.temp - this.temp` below zero
    | TimeDeltaUnderflow          // `next.time_seconds - this.time_seconds` below zero
    | DivisionByZero              // equal `time_seconds` on both ends of a segment
    | PointIndexOutOfBounds       // `points[idx]` or `points[idx1]`, index >= 6
    | NameIndexOutOfBounds        // `name[idx]`, index >= 6
    | CharacterIndexOutOfBounds   // `CHARACTERS[ui_counter]`, counter >= 36
    | PointsGetUnwrap             // `points.get(6).unwrap()` in the point-selection renderer
    | ClockOverflow               // `clocks += 1` past the maximum of u128
    // boot
    | LengthOverflow              // the 16-bit payload length plus 3 does not fit in u16
    | BufferIndexOutOfBounds      // `data[addr]` with addr >= 1000
    | DecodeFailed                // `unwrap()` of a failed profile-store decode

  /** The value of a computation that may panic. */
  datatype Result<T> = Ok(value: T) | Panic(fault: Fault)
}
