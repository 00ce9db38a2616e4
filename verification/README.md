# Reflow oven controller: a Dafny model

This project models the firmware of an AVR (ATmega328) reflow oven controller. The controller does five things:

- At power-on it reads a table of up to sixteen heating profiles from the EEPROM.
- It reads a thermocouple converter over SPI.
- It runs one endless loop. Each iteration of the loop does three things in order:
  - updates a saturating rotary-encoder counter;
  - while a run is on, follows the current segment of the running profile, switching the fan and heater relays;
  - on every twentieth iteration, draws one screen of a nested menu state machine and handles its button.
- Through the menu, the user can edit a profile (its name and its six waypoints), save it, and start or cancel a run.

The model is written as the code stands, including its quirks; see "Behaviour of the code as written" below. Every Rust panic is modelled: an out-of-range index, an `unwrap` on `None`, an arithmetic underflow or overflow (with overflow checks on, as in a debug build), or a division by zero. Each becomes a `Panic(fault)` result rather than a precondition, so the model says exactly which inputs crash the firmware.

## Layout

- `types.dfy` (`Types`)
  - The Rust integer widths as subset types.
  - `Option`, the rotary `Direction`, and the `Fault` catalogue.
  - `Result`.
- `store.dfy` (`Store`)
  - `CurvePoint`, `Profile` and `Profiles`, with their fixed array lengths: 6 name bytes, 6 waypoints and 16 slots.
  - The derived `Default` values and the hand-built power-on scratch profile.
- `ui.dfy` (`Ui`)
  - The renderers, reduced to what the loop observes: the returned flag, a panic, and the display commands issued.
  - The `CHARACTERS` alphabet.
- `thermocouple.dfy` (`Thermocouple`): the conversion of the two SPI bytes into a reading.
- `boot.dfy` (`Boot`): the EEPROM header read and the byte-copy loop into the 1000-byte buffer. The decoder is a parameter.
- `loop_spec.dfy` (`LoopSpec`)
  - The loop's local state as a value.
  - One iteration as a pure function `Step`, made of `Rotary`, `Ramp` and `Menu`.
  - One small function per screen and per button action.
- `controller.dfy` (`MainLoop`)
  - The loop body as a class `Controller` whose fields are the loop's local variables.
  - Every method updates the fields in place. Each is proved to leave exactly the state the matching `LoopSpec` function gives: `Snapshot() == F(old(Snapshot()))`.
- `loop_props.dfy` (`LoopProps`): what one iteration, and each of its parts, guarantees.

## Behaviour of the code as written

Each item is stated, and proved, about the code as it stands.

- **Heater decision.** The ramp compares the segment's slope with the measured temperature, not a target temperature. The slope is `(next.temp - this.temp) / (next.time - this.time)` in u16 arithmetic. The heater is on exactly when the slope is at least the reading (`RampHeaterRule`).
- **Slope panics.** The subtraction panics for a cooling segment or a time that goes backwards, and the division panics for a zero-length segment (`SlopeMeaning`, `RampPanics`).
- **Segment advance.** The advance test compares the waypoint time with the absolute tick truncated to 16 bits (`time as u16`). The elapsed time is not used. Past 65535 ticks, a segment can stall (`TruncatedTickStallsSegment`).
- **The `disabled` flag** of a waypoint is never consulted.
- **`current_pt` is never reset**, neither when a run completes nor when one is cancelled or started. A run started after one that completed panics on the waypoint index in its first ramp step (`RestartAfterCompletionPanics`).
- **The fan** is switched on by a run and never switched off (`OutputsFollowRun`).
- **Waypoint editors.** The three waypoint editors write waypoint `idx`, which is the name cursor. They do not write `idx1`, the waypoint the user selected (`PointEditorCommit`, `SelectedPointNotWritten`).
  - The value they store is `ui_counter` after the renderer has reset it. It is therefore 0, or 255 when the counter sits at its maximum.
  - The "disabled" editor stores whether the last rotary turn was clockwise.
- **Profile selection always edits slot 0.** Every renderer result that reaches the button handler has already zeroed the counter. The "go back" branch also zeroes the counter, and then falls through into the load (`ProfileSelectConfirm`).
- **Saving never happens.** The save action writes slot `idx` after setting `idx` to 0, so it would always write slot 0. But the save screen's renderer returns `true` at least for counters 0 and 1, and `true` resets the counter to 0 before the button is handled. The "yes" branch is therefore unreachable, and the store never changes after boot (`SaveButtonStoresScratch`, `SaveUnreachable`, `StoreNeverChanges`).
- **Cancelling never happens** for the same reason: the cancel screen's renderer returns true at counter 1, so the button never sees it. A run ends only by completing its last segment (`CancelButtonStops`, `CancelUnreachable`, `RunStopsOnlyAtLastSegment`).
- **Redraw flag.** `changed` works the inverse way of a dirty flag. A renderer clears the screen and writes the header only when its `cont` argument, which is `changed`, is false. Entering a screen sets `changed`, so the new screen's first frame skips the clear and the header. Every later frame of a screen that stays put clears and redraws it (`RedrawFollowsChanged`, `EnteredScreenSkipsClear`).
- **Renderer return values.** The two-option and four-option renderers do not type-check as written: the listed arms are blocks of type `()`, and the catch-all arm is the `bool` `false`. The model reads them as returning their final `true` for every counter (`Ui.ChoiceMenu`). The other reading, `_ => return false`, is `Ui.ChoiceMenuEarlyReturn`. Under both readings, counters 0 and 1 return `true`, so a no/yes screen that resets the counter on `true` never lets its button see "yes" (`YesNeverReachesButton`).
- **Point select renderer.** It panics on the "return" entry 6, because it unwraps `points.get(6)` after drawing that line (`PointSelectChoice`).
- **Name editor.** The secondary button indexes `CHARACTERS` with the unchecked counter, so a counter above 35 panics (`NameCommit`).
- **Skipped tick.** Choosing an empty slot to run ends the iteration with `continue`, which skips `clocks += 1` (`RunSelectChoice`, `StepDisplayAndClock`).
- **Boot header byte order.** The byte at address 0 is called `low_byte` but becomes the HIGH half of the length (`PayloadEnd`).
- **Boot address latching.** The copy loop writes the low byte of each address to EEARH and the high byte to EEARL, so the two halves of every address are swapped (`LatchSwapsBytes`, `CopiedCells`).
- **Decoder input.** The loop fills the buffer from index 3, while the decoder receives indices 0 to `num_bytes - 4`. Its input therefore starts with three zero bytes and misses the last three copied bytes (`DecoderInputShape`).

## Model

| member | source | states |
|---|---|---|
| Store.UnwrapOrDefault | src/main.rs:311-315 | a slot holding a profile gives that profile; an empty slot gives the derived default profile |
| Store.DerivedDefault | src/main.rs:147-181 | the derived default profile is six zero bytes and six zero enabled waypoints; it differs from the power-on scratch profile, which is six spaces and six disabled zero waypoints |
| Ui.AlphabetLayout | src/ui.rs:182-186 | the rotary alphabet has 36 entries: 'a' to 'z' in order, then '1' to '9', then '0' |
| Ui.FrameDisciplined | src/ui.rs:11-15 | every render clears the screen and writes the header exactly when `cont` is false, before it moves to row 1; no second-line text comes before that move |
| Ui.MainMenu | src/ui.rs:5-23 | main_menu never panics and always returns false |
| Ui.HeatMenu | src/ui.rs:25-48 | heat_menu panics with an index fault exactly when the counter is 16 or more; otherwise it returns true exactly when that slot holds a profile |
| Ui.SelectEditProfileMenu | src/ui.rs:120-148 | select_edit_profile_menu never panics and returns true exactly when the counter is below 16 |
| Ui.ChoiceMenu | src/ui.rs:150-180 | read with the final `true` as the result: the two-option and four-option menus always return true; they write a second line exactly for a listed option |
| Ui.ChoiceMenuEarlyReturn | src/ui.rs:346-362 | read with the catch-all arm as an early `return false`: the menu returns true exactly for a listed option, and writes a line exactly then |
| Ui.YesNeverReachesButton | src/ui.rs:364-384 | under either reading, the counter a no/yes screen's button sees after the reset on `true` is never 1 |
| Ui.EditProfileNameMenu | src/ui.rs:188-214 | edit_profile_name_menu returns true exactly when the counter indexes CHARACTERS |
| Ui.PointsSelectMenu | src/ui.rs:216-244 | the waypoint list panics with the `get(6)` unwrap exactly at counter 6; otherwise it returns true exactly for counters 0 to 5 |
| Ui.PointFieldMenu | src/ui.rs:276-344 | the temperature, time and disabled editors return false exactly at counter 255 |
| Ui.HeatingMenu | src/ui.rs:76-95 | heating_menu never panics and always returns false |
| Ui.RenderersDisciplined | src/ui.rs:5-384 | every renderer that does not panic follows the redraw discipline for its `cont` argument |
| Thermocouple.Reading | src/temperature.rs:21-27 | the reading is the 10-bit field of bits 5 to 14 of the masked little-endian word, so it never exceeds 1023 |
| Thermocouple.ByteOrder | src/temperature.rs:21-23 | the first SPI byte is the low half of the word and the second the high half |
| Thermocouple.MaskedBitsOnly | src/temperature.rs:24-27 | the reading depends only on the masked word |
| Thermocouple.IgnoredBits | src/temperature.rs:24 | bits 0 to 2 and bit 15 of the word never change the reading |
| Thermocouple.Monotone | src/temperature.rs:24-27 | a larger masked word never gives a smaller reading |
| Boot.LoadPayload | src/main.rs:103-132 | the header panics on u16 overflow; a payload end past the 1000-byte buffer panics in the copy loop; otherwise the result is exactly the byte-swapped-address copy with three leading zeros |
| Boot.LoadProfiles | src/main.rs:103-135 | the boot store is the decoder's value for that input; a decode failure is an unwrap panic, and an oversized header panics before decoding |
| Boot.HeaderBounds | src/main.rs:112-117 | the length overflows exactly when address 0 holds 255 and address 1 at least 253; the payload fits exactly when the big-endian header is at most 997 |
| Boot.LatchSwapsBytes | src/main.rs:122-131 | the latched address swaps the two bytes of the loop index, and latching twice is the identity |
| Boot.CopiedCells | src/main.rs:122-131 | with 10 address bits, loop index k below 1000 reads cell (k mod 4) * 256 + k / 256, one of sixteen cells |
| Boot.DecoderInputShape | src/main.rs:132-134 | the decoder input is three bytes shorter than the copied range and starts with three zero bytes |
| LoopSpec.Inputs.Temp | src/main.rs:203 | the loop's temperature is the thermocouple reading of the iteration's two SPI bytes, so it never exceeds 1023 |
| LoopSpec.Initial | src/main.rs:137-199 | the loop starts with the boot store, the power-on scratch profile, no run, and all indices in range |
| LoopSpec.Rotary | src/main.rs:209-223 | an event records its direction and moves the counter one step that way, saturating at 0 and 255; no event changes nothing; nothing but the counter and direction changes |
| MainLoop.Controller.constructor | src/main.rs:137-199 | the fields start as the initial loop state, satisfying the index invariant |
| MainLoop.Controller.Step | src/main.rs:201-688 | one iteration updates the fields to the state the pure iteration gives, returns the display commands, or reports the panic; a non-panicking iteration keeps the index invariant |
| MainLoop.Controller.RotaryUpdate | src/main.rs:209-223 | the fields become the rotary update of the old state |
| MainLoop.Controller.FollowRamp | src/main.rs:225-261 | the fields become the ramp step of the old state, or the ramp's panic is reported |
| MainLoop.Controller.FollowSegment | src/main.rs:230-259 | the fields become one segment evaluation of the old state, or its panic is reported |
| MainLoop.Controller.SegmentSlope | src/main.rs:236-237 | the slope is the u16 quotient of rise by duration, with the underflow and division-by-zero panics |
| MainLoop.Controller.StopRun | src/main.rs:252-258 | the run ends: main menu, run screen reset, run flag and times cleared |
| MainLoop.Controller.AdvanceSegment | src/main.rs:250-258 | the segment index advances when the next waypoint's time is not after the 16-bit tick, and the run ends at segment 5 |
| MainLoop.Controller.RunMenu | src/main.rs:263-684 | the fields become the menu step of the old state for the current screen, with its display commands, panic and early `continue` |
| MainLoop.Controller.MainMenuScreen | src/main.rs:264-286 | the main menu step: option 0 opens the oven screens, option 1 the editor |
| MainLoop.Controller.ProfileSelectScreen | src/main.rs:288-318 | the slot-selection step, including the reset by the renderer's result |
| MainLoop.Controller.ProfileSelectPress | src/main.rs:300-317 | confirming a slot loads it into the scratch profile and opens the element menu, after the "go back" branch when the counter is past the slots |
| MainLoop.Controller.LeaveEditorPress | src/main.rs:301-310 | the "go back" branch resets the counter, the cursors and the scratch profile and selects the main menu |
| MainLoop.Controller.ElementSelectScreen | src/main.rs:319-355 | the element-menu step |
| MainLoop.Controller.ElementSelectPress | src/main.rs:330-354 | the element-menu button opens the name editor, the waypoint list, the save screen or the exit screen |
| MainLoop.Controller.NameEditScreen | src/main.rs:356-384 | the name-editor step: commit with the secondary button, leave with the primary one |
| MainLoop.Controller.CommitPress | src/main.rs:368-376 | the character at the counter is written at the cursor and the cursor advances modulo six; a counter past the alphabet panics |
| MainLoop.Controller.PointSelectScreen | src/main.rs:385-413 | the waypoint-list step, with the panic at entry 6 |
| MainLoop.Controller.PointSelectPress | src/main.rs:395-413 | the waypoint-list button selects waypoint 0 to 5 into `idx1` or returns |
| MainLoop.Controller.PointElementScreen | src/main.rs:414-455 | the waypoint-field menu step |
| MainLoop.Controller.PointElementPress | src/main.rs:428-453 | the waypoint-field menu button opens the temperature, time or disabled editor, or goes back |
| MainLoop.Controller.PointFieldScreen | src/main.rs:456-521 | the step of one waypoint-field editor |
| MainLoop.Controller.PointFieldPress | src/main.rs:468-474 | the edited field of waypoint `idx` takes the counter (or the direction), and the editor returns to the waypoint-field menu; an out-of-range `idx` panics |
| MainLoop.Controller.ExitConfirmScreen | src/main.rs:522-546 | the exit-confirmation step |
| MainLoop.Controller.ExitConfirmPress | src/main.rs:528-546 | "yes" discards the scratch profile and the cursors and returns to slot selection; "no" returns to the element menu |
| MainLoop.Controller.WriteConfirmScreen | src/main.rs:547-580 | the save-confirmation step |
| MainLoop.Controller.WriteConfirmPress | src/main.rs:557-578 | "yes" stores the scratch profile in slot `idx` after zeroing `idx`, and resets the editor |
| MainLoop.Controller.RunSelectScreen | src/main.rs:582-607 | the run-selection step, with the index panic and the early `continue` |
| MainLoop.Controller.RunSelectPress | src/main.rs:587-606 | an empty slot returns to the main menu and skips the tick count; an occupied one goes to confirmation |
| MainLoop.Controller.RunConfirmScreen | src/main.rs:608-634 | the run-confirmation step, with the `unwrap` panic on an empty run slot |
| MainLoop.Controller.RunConfirmPress | src/main.rs:618-633 | "yes" starts the run at the current tick; "no" returns to run selection |
| MainLoop.Controller.RunningScreen | src/main.rs:636-651 | the live screen; the button opens the cancel screen |
| MainLoop.Controller.CancelScreen | src/main.rs:652-683 | the cancel-confirmation step |
| MainLoop.Controller.CancelPress | src/main.rs:665-680 | "yes" stops the run and returns to the main menu; "no" resumes the live screen |
| LoopProps.RampFrame | src/main.rs:225-261 | under the index invariant, the ramp never panics on the run index, keeps the invariant, and changes only the run's fields, the relays and the screen it returns to |
| LoopProps.MainMenuKeeps | src/main.rs:264-286 | the main menu keeps the store, relays, counters and segment index, keeps the invariant, and draws one disciplined frame |
| LoopProps.ProfileSelectKeeps | src/main.rs:288-318 | the same frame facts for slot selection |
| LoopProps.ElementSelectKeeps | src/main.rs:319-355 | the same frame facts for the element menu |
| LoopProps.NameEditKeeps | src/main.rs:356-384 | the same frame facts for the name editor |
| LoopProps.PointSelectKeeps | src/main.rs:385-413 | the same frame facts for the waypoint list |
| LoopProps.PointElementKeeps | src/main.rs:414-455 | the same frame facts for the waypoint-field menu |
| LoopProps.PointFieldKeeps | src/main.rs:456-521 | the same frame facts for the three waypoint-field editors |
| LoopProps.ExitConfirmKeeps | src/main.rs:522-546 | the same frame facts for the exit screen |
| LoopProps.WriteConfirmKeeps | src/main.rs:547-580 | the same frame facts for the save screen |
| LoopProps.RunSelectKeeps | src/main.rs:582-607 | the same frame facts for run selection |
| LoopProps.RunConfirmKeeps | src/main.rs:608-634 | the same frame facts for run confirmation |
| LoopProps.RunningKeeps | src/main.rs:636-651 | the same frame facts for the live screen |
| LoopProps.CancelKeeps | src/main.rs:652-683 | the same frame facts for the cancel screen |
| LoopProps.EditFrame | src/main.rs:287-580 | every editor screen keeps the frame facts |
| LoopProps.RunFrame | src/main.rs:581-684 | every oven screen keeps the frame facts |
| LoopProps.MenuFrame | src/main.rs:263-684 | every menu screen keeps the store, relays, iteration counter, segment index and a running oven, keeps the invariant, and draws one disciplined frame |
| LoopProps.MenuFaults | src/main.rs:263-684 | under the invariant, the menu never panics on the name cursor, the selected waypoint or the run index |
| LoopProps.StepParts | src/main.rs:201-688 | an iteration succeeds exactly through a successful ramp and, on a display iteration, a successful menu, and then adds one to the iteration counter unless `continue` was taken |
| LoopProps.StepKeepsInv | src/main.rs:201-688 | every non-panicking iteration keeps the index invariant |
| LoopProps.InvExcludesIndexFaults | src/main.rs:201-688 | under the invariant, no iteration panics on the name cursor, the selected waypoint or the run index |
| LoopProps.MainMenuConfirm | src/main.rs:268-285 | confirming on the main menu resets the counter, opens the oven screens for 0 or the editor for 1, and sets `changed` exactly when a new screen is entered, so that screen's first frame skips the clear and the header |
| LoopProps.RedrawFollowsChanged | src/main.rs:263-684 | a menu frame clears the screen and writes the header exactly when `changed` was false at the start of the iteration |
| LoopProps.EnteredScreenSkipsClear | src/main.rs:270-275 | after option 0 on the main menu, the first oven-screen frame has neither clear nor header; a main-menu frame with `changed` clear has both |
| LoopProps.ProfileSelectConfirm | src/main.rs:288-318 | confirming on slot selection always loads slot 0; only the "go back" branch selects the main menu and resets the cursors; the store is unchanged |
| LoopProps.NameCommit | src/main.rs:368-382 | the commit panics exactly when the counter is past the alphabet; otherwise only the character at the cursor changes, the cursor advances modulo six (or resets on the primary button), and the counter resets |
| LoopProps.NameKeptWithoutCommit | src/main.rs:356-384 | without the secondary button, the name editor never panics and keeps the scratch profile |
| LoopProps.PointSelectChoice | src/main.rs:385-413 | the waypoint list panics exactly on entry 6; confirming entry 0 to 5 selects it and opens the waypoint-field menu |
| LoopProps.PointEditorCommit | src/main.rs:456-521 | under the invariant, confirming a field editor never panics; it changes only the edited field of waypoint `idx`, to 0 or 255 (or to "last turn clockwise"), and returns to the waypoint-field menu |
| LoopProps.SelectedPointNotWritten | src/main.rs:468-472 | with the name cursor on another waypoint, the selected waypoint is not changed by its own editor |
| LoopProps.ExitDiscards | src/main.rs:535-542 | leaving the editor with "yes" discards the scratch profile and both cursors and keeps the store |
| LoopProps.SaveButtonStoresScratch | src/main.rs:564-573 | the "yes" branch of save would store the scratch profile in slot 0 whatever slot was edited, keep the other fifteen slots and the count, and reset the editor |
| LoopProps.SaveUnreachable | src/main.rs:549-578 | through the save screen the button always sees counter 0: the store is unchanged and a press returns to the element menu |
| LoopProps.RunSelectChoice | src/main.rs:587-606 | confirming a slot skips the tick count exactly when the slot is empty, returning to the main menu; an occupied slot becomes the run slot and goes to confirmation |
| LoopProps.RunConfirmStart | src/main.rs:608-634 | confirmation panics exactly on an empty run slot; "yes" starts the run at the tick and keeps the old segment index |
| LoopProps.CancelButtonStops | src/main.rs:671-678 | the "yes" branch of cancel stops the run and returns to the main menu, but keeps the segment index and the heater level |
| LoopProps.CancelUnreachable | src/main.rs:652-683 | through the cancel screen the button always sees counter 0: the run goes on and a press resumes the live screen |
| LoopProps.RampIdle | src/main.rs:225 | without a run, the ramp changes nothing |
| LoopProps.RampEmptySlot | src/main.rs:226-230 | a run on an empty slot changes only the fan |
| LoopProps.SlopeMeaning | src/main.rs:236-237 | the slope panics exactly for a cooling or non-advancing segment; otherwise it is the floor of rise over duration |
| LoopProps.RampPanics | src/main.rs:230-237 | a run on an occupied slot panics exactly at the last waypoint, when the tick precedes the start, or when the slope panics |
| LoopProps.RampHeaterRule | src/main.rs:233-249 | during a run on an occupied slot the fan is on, the elapsed ticks are recorded, and the heater is on exactly when the slope is at least the temperature |
| LoopProps.SteepSegmentHeats | src/main.rs:236-249 | since the reading never exceeds 1023, a segment with slope 1023 or more keeps the heater on whatever the thermocouple reports |
| LoopProps.SegmentAdvance | src/main.rs:250-258 | the segment index grows by at most one, exactly when the next waypoint's time is not after the 16-bit tick; the run ends exactly on reaching segment 5, clearing its times |
| LoopProps.TruncatedTickStallsSegment | src/main.rs:250 | at tick 65536 a segment ending at second 100 does not advance, while at tick 100 it does |
| LoopProps.RestartAfterCompletionPanics | src/main.rs:229-232 | a run started at segment 5 panics on the waypoint index in the ramp |
| LoopProps.OutputsFollowRun | src/main.rs:225-261 | the heater and fan change only while a run is on, and the fan is never switched off |
| LoopProps.RunStopsOnlyAtLastSegment | src/main.rs:250-258 | a running oven stops only by completing its last segment |
| LoopProps.StoreNeverChanges | src/main.rs:201-688 | no iteration changes the profile store |
| LoopProps.StepDisplayAndClock | src/main.rs:263-687 | the menu runs only on every twentieth iteration and then draws one disciplined frame; the iteration counter advances by one unless `continue` was taken |

## Left out

- The LCD driver crate (`lcd.rs`) is not part of this model. Only the commands the renderers issue are modelled (clear, header line, cursor move, one text line), not their text or timing.
- Hardware I/O is not modelled: pin reads, relay writes, the SPI transfer, chip-select timing and `delay_ms`. The two thermocouple bytes, the button levels, the rotary event and the tick are inputs of an iteration. The loop's temperature is `Thermocouple.Reading` of the two bytes. A relay write is modelled as the level last written.
- The rotary decoder (`rotary.update` with its pulse divider) is not modelled. Its output, an optional direction, is an input.
- The timer interrupt, the atomic `OYASUMI_TIME` counter and the compare-value set-up are not modelled. The compare value is computed in floating point. The tick is one `u64` input per iteration. The source loads `OYASUMI_TIME` separately in the ramp and when a run starts (src/main.rs:233 and 630), and the model uses the same value for both loads; an interrupt between the two loads is not modelled.
- The decoder (`postcard::from_bytes` with serde) is a parameter of `Boot.LoadProfiles`. There is no encoder in the firmware, so no round trip is stated.
- The boot EEPROM copy assumes the device decodes only the low 10 address bits.
- The loop reads an undeclared `display_update` at the menu guard. It is modelled as the declared `DISPLAY_UPDATE` constant, 20.
- Some renderer arguments do not resolve: `profile[...]`, `current_running_profile`, and `CHARACTERS[cont]` in the name preview. The display text they would feed is not modelled. Only the renderers' return values and panics are, except the name preview's cursor index, which has its own line below.
- The segment index `current_pt` is a `usize`; it is modelled as `nat`. Under the index invariant it never exceeds 5, so the width never matters.
- Every integer overflow and underflow is modelled as a panic, as with overflow checks on (a debug build). This covers the `+ 3` on the boot header, `time - current_start_time` and the u16 subtractions of the slope. A release build wraps instead; the model does not capture that, for example a cooling segment then giving a huge slope that switches the heater on.
- The name preview's `wd2[idx]` in `edit_profile_name_menu` would panic for a cursor of 6 or more. The model's renderer takes no cursor and never panics there. Such a cursor is unreachable: the loop starts with cursor 0, and every non-panicking iteration keeps the index invariant (`StepKeepsInv`).
- `clocks` is a `u128`. Its overflow after 2^128 - 1 iterations is modelled as a `ClockOverflow` panic, as in a debug build.
- Ui.ChoiceMenu: one function stands for the six two-option and four-option renderers, because they differ only in their text.
- LoopProps.SaveUnreachable: the second clause, a press returning to the element menu, holds under the `Ui.ChoiceMenu` reading only. Under the early-return reading, a counter of 2 or more reaches the button, which resets the counter and stays on the save screen. The store clause holds under both readings.
- LoopProps.CancelUnreachable: the second clause, a press resuming the live screen, holds under the `Ui.ChoiceMenu` reading only. Under the early-return reading, a counter of 2 or more reaches the button, which resets the counter and stays on the cancel screen. The `running` clause holds under both readings.
- Ui.PointFieldMenu: one function stands for the temperature, time and disabled editors, because they differ only in their text.
