/** Properties of one loop iteration and of its parts, stated over the pure
    transition functions of `LoopSpec`. */
module LoopProps {
  import opened Types
  import opened Store
  import Ui
  import opened LoopSpec

  // ---------------------------------------------------------------------------
  // what the parts of an iteration leave alone

  /** The ramp touches only the run's fields, the relays and the screen it
      returns to; with the invariant it keeps the invariant, and it never panics
      on the run index. */
  lemma {:induction false} RampFrame(s: State, temp: u16, tick: u64)
    requires Inv(s)
    ensures Ramp(s, temp, tick).Panic? ==> Ramp(s, temp, tick).fault != RunSlotIndexOutOfBounds
    ensures Ramp(s, temp, tick).Ok? ==>
      var t := Ramp(s, temp, tick).value;
      Inv(t) &&
      t == s.(fan := t.fan, heater := t.heater, currentPt := t.currentPt, timeLeft := t.timeLeft,
              startTime := t.startTime, running := t.running, uiState := t.uiState, runState := t.runState)
  {
    if s.running && s.profiles.slots[s.runIdx].Some? {
      var p := s.profiles.slots[s.runIdx].value;
      assert Ramp(s, temp, tick) == Segment(s.(fan := High), p, temp, tick);
    }
  }

  /** The facts every menu screen keeps: the store, the relays, the iteration
      counter, the segment index and a running oven stay as they were, the
      index invariant is kept, and the screen follows the redraw discipline for
      the `changed` flag it started with. */
  predicate MenuKeeps(s: State, sh: Shown) {
    var t := sh.state;
    t.profiles == s.profiles && t.heater == s.heater && t.fan == s.fan && t.clocks == s.clocks &&
    t.currentPt == s.currentPt && (s.running ==> t.running) &&
    (Inv(s) ==> Inv(t)) && (sh.ops == Ui.Frame(s.changed, true) || sh.ops == Ui.Frame(s.changed, false))
  }

  lemma {:induction false} MainMenuKeeps(s: State, button: bool)
    ensures MenuKeeps(s, MainMenuStep(s, button))
  {
  }

  lemma {:induction false} ProfileSelectKeeps(s: State, button: bool)
    ensures MenuKeeps(s, ProfileSelectStep(s, button))
  {
  }

  lemma {:induction false} ElementSelectKeeps(s: State, button: bool)
    ensures MenuKeeps(s, ElementSelectStep(s, button))
  {
  }

  lemma {:induction false} NameEditKeeps(s: State, button: bool, altButton: bool)
    requires NameEditStep(s, button, altButton).Ok?
    ensures MenuKeeps(s, NameEditStep(s, button, altButton).value)
  {
  }

  lemma {:induction false} PointSelectKeeps(s: State, button: bool)
    requires PointSelectStep(s, button).Ok?
    ensures MenuKeeps(s, PointSelectStep(s, button).value)
  {
  }

  lemma {:induction false} PointElementKeeps(s: State, button: bool)
    requires PointElementStep(s, button).Ok?
    ensures MenuKeeps(s, PointElementStep(s, button).value)
  {
  }

  lemma {:induction false} PointFieldKeeps(s: State, field: PointField, button: bool)
    requires PointFieldStep(s, field, button).Ok?
    ensures MenuKeeps(s, PointFieldStep(s, field, button).value)
  {
  }

  lemma {:induction false} ExitConfirmKeeps(s: State, button: bool)
    ensures MenuKeeps(s, ExitConfirmStep(s, button))
  {
  }

  lemma {:induction false} WriteConfirmKeeps(s: State, button: bool)
    ensures MenuKeeps(s, WriteConfirmStep(s, button))
  {
  }

  lemma {:induction false} RunSelectKeeps(s: State, button: bool)
    requires RunSelectStep(s, button).Ok?
    ensures MenuKeeps(s, RunSelectStep(s, button).value)
  {
  }

  lemma {:induction false} RunConfirmKeeps(s: State, button: bool, tick: u64)
    requires RunConfirmStep(s, button, tick).Ok?
    ensures MenuKeeps(s, RunConfirmStep(s, button, tick).value)
  {
  }

  lemma {:induction false} RunningKeeps(s: State, button: bool)
    ensures MenuKeeps(s, RunningStep(s, button))
  {
  }

  lemma {:induction false} CancelKeeps(s: State, button: bool)
    ensures MenuKeeps(s, CancelStep(s, button))
  {
  }

  lemma {:induction false} EditFrame(s: State, i: Inputs)
    requires EditStep(s, i).Ok?
    ensures MenuKeeps(s, EditStep(s, i).value)
  {
    match s.editState
    case ProfileSelect => ProfileSelectKeeps(s, i.button);
    case ProfileElementSelect => ElementSelectKeeps(s, i.button);
    case ProfileNameEdit => NameEditKeeps(s, i.button, i.altButton);
    case ProfilePointSelect => PointSelectKeeps(s, i.button);
    case ProfilePointSelectElementEdit => PointElementKeeps(s, i.button);
    case ProfilePointTempEdit => PointFieldKeeps(s, TempField, i.button);
    case ProfilePointTimeEdit => PointFieldKeeps(s, TimeField, i.button);
    case ProfilePointDisabledEdit => PointFieldKeeps(s, DisabledField, i.button);
    case ProfileExitConfirmMenu => ExitConfirmKeeps(s, i.button);
    case ProfileWriteConfirmMenu => WriteConfirmKeeps(s, i.button);
  }

  lemma {:induction false} RunFrame(s: State, i: Inputs)
    requires RunStep(s, i).Ok?
    ensures MenuKeeps(s, RunStep(s, i).value)
  {
    match s.runState
    case OvenProfileSelect => RunSelectKeeps(s, i.button);
    case OvenProfileRunConfirm => RunConfirmKeeps(s, i.button, i.tick);
    case OvenProfileRunningMenu => RunningKeeps(s, i.button);
    case OvenProfileCancelRunningMenu => CancelKeeps(s, i.button);
  }

  /** Every menu screen keeps `MenuKeeps`. */
  lemma {:induction false} MenuFrame(s: State, i: Inputs)
    requires Menu(s, i).Ok?
    ensures MenuKeeps(s, Menu(s, i).value)
  {
    match s.uiState
    case MainMenu => MainMenuKeeps(s, i.button);
    case ProfileEdit => EditFrame(s, i);
    case OvenRun => RunFrame(s, i);
  }

  /** Under the invariant the menu never panics on the name cursor, the selected
      waypoint or the run index. */
  lemma {:induction false} MenuFaults(s: State, i: Inputs)
    requires Inv(s) && Menu(s, i).Panic?
    ensures Menu(s, i).fault !in {NameIndexOutOfBounds, PointIndexOutOfBounds, RunSlotIndexOutOfBounds}
  {
    if s.uiState == ProfileEdit && s.editState == ProfileNameEdit {
      assert Menu(s, i) == NameEditStep(s, i.button, i.altButton);
    }
  }

  /** An iteration is its three parts in order: it succeeds exactly when the
      ramp and, on a display iteration, the menu succeed, and then only the
      iteration counter is added. */
  lemma {:induction false} StepParts(s: State, i: Inputs)
    ensures Step(s, i).Ok? ==>
      var r := Ramp(Rotary(s, i.event), i.Temp(), i.tick);
      r.Ok? &&
      var m := if r.value.clocks % DISPLAY_UPDATE == 0 then Menu(r.value, i) else Ok(Shown(r.value, [], false));
      m.Ok? &&
      var c := m.value.state.clocks;
      Step(s, i).value == m.value.(state := m.value.state.(clocks := if m.value.skipTick then c else c + 1))
  {
  }

  // ---------------------------------------------------------------------------
  // the index invariant

  /** Every iteration that does not panic keeps the index invariant. */
  lemma {:induction false} StepKeepsInv(s: State, i: Inputs)
    requires Inv(s) && Step(s, i).Ok?
    ensures Inv(Step(s, i).value.state)
  {
    StepParts(s, i);
    var s1 := Rotary(s, i.event);
    RampFrame(s1, i.Temp(), i.tick);
    var s2 := Ramp(s1, i.Temp(), i.tick).value;
    if s2.clocks % DISPLAY_UPDATE == 0 {
      MenuFrame(s2, i);
    }
  }

  /** Under the invariant no iteration panics on the name cursor, the selected
      waypoint or the run index. */
  lemma {:induction false} InvExcludesIndexFaults(s: State, i: Inputs)
    requires Inv(s) && Step(s, i).Panic?
    ensures Step(s, i).fault !in {NameIndexOutOfBounds, PointIndexOutOfBounds, RunSlotIndexOutOfBounds}
  {
    var s1 := Rotary(s, i.event);
    RampFrame(s1, i.Temp(), i.tick);
    var r := Ramp(s1, i.Temp(), i.tick);
    if r.Ok? && r.value.clocks % DISPLAY_UPDATE == 0 && Menu(r.value, i).Panic? {
      MenuFaults(r.value, i);
    }
  }

  // ---------------------------------------------------------------------------
  // the main menu

  /** Confirming on the main menu: option 0 opens the oven screens, option 1 the
      editor, any other option stays; the counter is always reset, and `changed`
      is set exactly when a new screen is entered, so that screen's first frame
      skips the clear and the header (`EnteredScreenSkipsClear`). */
  lemma {:induction false} MainMenuConfirm(s: State)
    ensures var t := MainMenuStep(s, true).state;
      t.counter == 0 &&
      t.uiState == (if s.counter == 0 then OvenRun else if s.counter == 1 then ProfileEdit else s.uiState) &&
      (t.changed <==> s.counter <= 1) &&
      t == s.(counter := 0, uiState := t.uiState, changed := t.changed)
  {
  }

  /** The `changed` flag works the inverse way of a dirty flag: a menu frame
      clears the screen and writes the header exactly when `changed` was false
      at the start of the iteration. */
  lemma {:induction false} RedrawFollowsChanged(s: State, i: Inputs)
    requires Menu(s, i).Ok?
    ensures Ui.Clear in Menu(s, i).value.ops <==> !s.changed
    ensures Ui.Header in Menu(s, i).value.ops <==> !s.changed
  {
    MenuFrame(s, i);
    Ui.FrameDisciplined(s.changed, true);
    Ui.FrameDisciplined(s.changed, false);
  }

  /** Entering the oven screens from the main menu sets `changed`, so the first
      frame of the new screen neither clears the screen nor writes its header;
      staying on the main menu with `changed` clear redraws it in full. */
  lemma {:induction false} EnteredScreenSkipsClear(s: State, i: Inputs)
    requires s.uiState == MainMenu && s.counter == 0
    ensures var t := MainMenuStep(s, true).state;
      t.uiState == OvenRun && t.changed &&
      (Menu(t, i).Ok? ==> Ui.Clear !in Menu(t, i).value.ops && Ui.Header !in Menu(t, i).value.ops)
    ensures !s.changed ==> Ui.Clear in MainMenuStep(s, false).ops && Ui.Header in MainMenuStep(s, false).ops
  {
    var t := MainMenuStep(s, true).state;
    if Menu(t, i).Ok? {
      RedrawFollowsChanged(t, i);
    }
    if !s.changed {
      RedrawFollowsChanged(s, i.(button := false));
    }
  }

  // ---------------------------------------------------------------------------
  // the profile editor

  /** Confirming on slot selection always edits slot 0: the renderer zeroes any
      counter below 16, and the "go back" branch zeroes a larger one and falls
      through into the load. Only the "go back" branch selects the main menu, and
      it also resets both cursors. */
  lemma {:induction false} ProfileSelectConfirm(s: State)
    ensures var t := ProfileSelectStep(s, true).state;
      t.editNum == 0 && t.scratch == UnwrapOrDefault(s.profiles.slots[0]) &&
      t.editState == ProfileElementSelect && t.counter == 0 && t.changed &&
      t.uiState == (if s.counter >= SLOT_COUNT then MainMenu else s.uiState) &&
      (s.counter >= SLOT_COUNT ==> t.idx == 0 && t.idx1 == 0) &&
      (s.counter < SLOT_COUNT ==> t.idx == s.idx && t.idx1 == s.idx1) &&
      t.profiles == s.profiles
  {
  }

  /** Committing a character: it panics exactly when the counter is not an index
      of the alphabet; otherwise the character is written at the cursor, the rest
      of the name is kept and the cursor advances modulo six (or returns to 0 when
      the primary button leaves the screen in the same iteration). */
  lemma {:induction false} NameCommit(s: State, button: bool)
    requires Inv(s)
    ensures NameEditStep(s, button, true).Panic? <==> s.counter >= |Ui.CHARACTERS|
    ensures NameEditStep(s, button, true).Ok? ==>
      var t := NameEditStep(s, button, true).value.state;
      t.scratch.name == s.scratch.name[s.idx := Ui.CHARACTERS[s.counter]] &&
      t.scratch.points == s.scratch.points &&
      t.idx == (if button then 0 else (s.idx + 1) % NAME_LEN) &&
      t.counter == 0
  {
  }

  /** Without the secondary button the name editor never panics and keeps the
      scratch profile. */
  lemma {:induction false} NameKeptWithoutCommit(s: State, button: bool)
    ensures NameEditStep(s, button, false).Ok?
    ensures NameEditStep(s, button, false).value.state.scratch == s.scratch
  {
  }

  /** The waypoint list panics exactly on the "return" entry 6; choosing entry 0
      to 5 selects that waypoint. */
  lemma {:induction false} PointSelectChoice(s: State, button: bool)
    ensures PointSelectStep(s, button).Panic? <==> s.counter == POINT_COUNT
    ensures button && s.counter < POINT_COUNT ==>
      var t := PointSelectStep(s, button).value.state;
      t.idx1 == s.counter && t.editState == ProfilePointSelectElementEdit && t.counter == 0
  {
  }

  /** Confirming a waypoint editor: under the invariant it never panics; it changes
      only waypoint `idx` (the name cursor) of the scratch profile and only the
      field it edits; a temperature or time becomes 0, or 255 when the counter is
      at its maximum, and the flag becomes "the last rotary turn was clockwise";
      the editor returns to the waypoint menu. */
  lemma {:induction false} PointEditorCommit(s: State, field: PointField)
    requires Inv(s)
    ensures PointFieldStep(s, field, true).Ok?
    ensures var t := PointFieldStep(s, field, true).value.state;
      var old_ := s.scratch.points[s.idx];
      var new_ := t.scratch.points[s.idx];
      var v := if s.counter == U8_MAX then U8_MAX else 0;
      t.scratch.name == s.scratch.name &&
      (forall k | 0 <= k < POINT_COUNT && k != s.idx :: t.scratch.points[k] == s.scratch.points[k]) &&
      (field == TempField ==> new_ == old_.(temp := v)) &&
      (field == TimeField ==> new_ == old_.(timeSeconds := v)) &&
      (field == DisabledField ==> new_ == old_.(disabled := s.direction == Clockwise)) &&
      t.editState == ProfilePointSelectElementEdit && t.counter == 0 && t.idx1 == s.idx1
  {
  }

  /** The waypoint an editor writes is the name cursor, so with the cursor on
      another waypoint the selected one is left as it was. */
  lemma {:induction false} SelectedPointNotWritten(s: State, field: PointField)
    requires Inv(s) && s.idx != s.idx1
    ensures PointFieldStep(s, field, true).value.state.scratch.points[s.idx1] == s.scratch.points[s.idx1]
  {
    PointEditorCommit(s, field);
  }

  /** Leaving the editor with "yes" discards the scratch profile and both cursors. */
  lemma {:induction false} ExitDiscards(s: State)
    requires s.counter == 1
    ensures var t := ExitConfirmStep(s, true).state;
      t.scratch == DefaultProfile() && t.idx == 0 && t.idx1 == 0 &&
      t.editState == ProfileSelect && t.profiles == s.profiles
  {
  }

  /** The save button with counter 1 stores the scratch profile into slot 0,
      whatever slot was being edited, leaves the count and the other fifteen slots
      alone, and resets the scratch profile; the stored copy keeps the value the
      scratch had. */
  lemma {:induction false} SaveButtonStoresScratch(s: State)
    requires s.counter == 1
    ensures var t := WriteConfirmButton(s);
      t.profiles.slots[0] == Some(s.scratch) &&
      t.profiles.numProfiles == s.profiles.numProfiles &&
      (forall k | 0 < k < SLOT_COUNT :: t.profiles.slots[k] == s.profiles.slots[k]) &&
      t.scratch == DefaultProfile() && t.idx == 0 && t.idx1 == 0 &&
      t.editState == ProfileSelect && t.counter == 0
  {
  }

  /** Through the save screen the button sees a counter of 0, so saving never
      happens: the store is unchanged and a press returns to the element menu. */
  lemma {:induction false} SaveUnreachable(s: State, button: bool)
    ensures WriteConfirmStep(s, button).state.profiles == s.profiles
    ensures button ==> WriteConfirmStep(s, button).state.editState == ProfileElementSelect
  {
  }

  // ---------------------------------------------------------------------------
  // the oven screens

  /** Choosing an empty slot to run returns to the main menu and ends the
      iteration early; an occupied one is remembered for confirmation. */
  lemma {:induction false} RunSelectChoice(s: State)
    requires s.counter < SLOT_COUNT
    ensures RunSelectStep(s, true).Ok?
    ensures var sh := RunSelectStep(s, true).value;
      (sh.skipTick <==> s.profiles.slots[s.counter].None?) &&
      (sh.skipTick ==> sh.state.uiState == MainMenu && sh.state.runIdx == 0) &&
      (!sh.skipTick ==> sh.state.runIdx == s.counter && sh.state.runState == OvenProfileRunConfirm)
  {
  }

  /** Confirming a run panics when the run slot is empty; option 1 starts the run
      at the current tick and keeps the segment index of any earlier run. */
  lemma {:induction false} RunConfirmStart(s: State, tick: u64)
    requires Inv(s)
    ensures RunConfirmStep(s, true, tick).Panic? <==> s.profiles.slots[s.runIdx].None?
    ensures RunConfirmStep(s, true, tick).Ok? && s.counter == 1 ==>
      var t := RunConfirmStep(s, true, tick).value.state;
      t.running && t.startTime == tick && t.currentPt == s.currentPt &&
      t.runState == OvenProfileRunningMenu
  {
  }

  /** The cancel button with counter 1 stops the run and returns to the main
      menu, but keeps the segment index and the heater level. */
  lemma {:induction false} CancelButtonStops(s: State)
    requires s.counter == 1
    ensures var t := CancelButton(s);
      !t.running && t.timeLeft == 0 && t.startTime == 0 && t.uiState == MainMenu &&
      t.runState == OvenProfileSelect && t.currentPt == s.currentPt && t.heater == s.heater
  {
  }

  /** Through the cancel screen the button sees a counter of 0, so cancelling
      never happens: a press resumes the live screen. */
  lemma {:induction false} CancelUnreachable(s: State, button: bool)
    ensures CancelStep(s, button).state.running == s.running
    ensures button ==> CancelStep(s, button).state.runState == OvenProfileRunningMenu
  {
  }

  // ---------------------------------------------------------------------------
  // the ramp follower

  /** Without a run the ramp changes nothing. */
  lemma {:induction false} RampIdle(s: State, temp: u16, tick: u64)
    requires !s.running
    ensures Ramp(s, temp, tick) == Ok(s)
  {
  }

  /** With a run on an empty slot only the fan changes. */
  lemma {:induction false} RampEmptySlot(s: State, temp: u16, tick: u64)
    requires s.running && Inv(s) && s.profiles.slots[s.runIdx].None?
    ensures Ramp(s, temp, tick) == Ok(s.(fan := High))
  {
  }

  /** The slope is the integer quotient of the segment's rise by its duration; it
      panics unless the next waypoint is strictly later and not cooler. */
  lemma {:induction false} SlopeMeaning(here: CurvePoint, next: CurvePoint)
    ensures Slope(here, next).Panic? <==> next.temp < here.temp || next.timeSeconds <= here.timeSeconds
    ensures Slope(here, next).Ok? ==>
      var q := Slope(here, next).value;
      var rise := next.temp - here.temp;
      var span := next.timeSeconds - here.timeSeconds;
      q * span <= rise < (q + 1) * span
  {
  }

  /** The ramp with a run on an occupied slot panics exactly when the segment
      index is at the last waypoint, the tick is before the start, or the segment
      has no valid slope. */
  lemma {:induction false} RampPanics(s: State, temp: u16, tick: u64)
    requires s.running && Inv(s) && s.profiles.slots[s.runIdx].Some?
    ensures var p := s.profiles.slots[s.runIdx].value;
      Ramp(s, temp, tick).Panic? <==>
        s.currentPt + 1 >= POINT_COUNT || tick < s.startTime ||
        Slope(p.points[s.currentPt], p.points[s.currentPt + 1]).Panic?
  {
  }

  /** The heater rule: during a run on an occupied slot the fan is on, the
      elapsed ticks are recorded, and the heater is on exactly when the slope is
      at least the measured temperature. */
  lemma {:induction false} RampHeaterRule(s: State, temp: u16, tick: u64)
    requires s.running && Inv(s) && s.profiles.slots[s.runIdx].Some? && Ramp(s, temp, tick).Ok?
    ensures var p := s.profiles.slots[s.runIdx].value;
      var t := Ramp(s, temp, tick).value;
      var q := Slope(p.points[s.currentPt], p.points[s.currentPt + 1]).value;
      t.fan == High && (t.heater == High <==> q >= temp) &&
      (t.running ==> t.timeLeft == tick - s.startTime)
  {
  }

  /** The loop's reading never exceeds 1023, so during a run on an occupied
      slot a segment whose slope is 1023 or more keeps the heater on whatever
      the thermocouple reports. */
  lemma {:induction false} SteepSegmentHeats(s: State, i: Inputs)
    requires s.running && Inv(s) && s.profiles.slots[s.runIdx].Some? && Ramp(s, i.Temp(), i.tick).Ok?
    requires var p := s.profiles.slots[s.runIdx].value;
      s.currentPt + 1 < POINT_COUNT &&
      Slope(p.points[s.currentPt], p.points[s.currentPt + 1]).Ok? &&
      Slope(p.points[s.currentPt], p.points[s.currentPt + 1]).value >= 1023
    ensures Ramp(s, i.Temp(), i.tick).value.heater == High
  {
    RampHeaterRule(s, i.Temp(), i.tick);
  }

  /** The segment index grows by at most one per iteration, and exactly when a
      run on an occupied slot finds the next waypoint's time not after the tick
      truncated to 16 bits. Reaching the last segment ends the run, resets the
      run's times and returns to the main menu, without resetting the segment
      index or the heater. */
  lemma {:induction false} SegmentAdvance(s: State, temp: u16, tick: u64)
    requires Inv(s) && Ramp(s, temp, tick).Ok?
    ensures var t := Ramp(s, temp, tick).value;
      (t.currentPt == s.currentPt || t.currentPt == s.currentPt + 1) &&
      (t.currentPt == s.currentPt + 1 <==>
        s.running && s.profiles.slots[s.runIdx].Some? &&
        s.profiles.slots[s.runIdx].value.points[s.currentPt + 1].timeSeconds <= tick % 0x1_0000) &&
      (s.running && !t.running <==> t.currentPt == LAST_SEGMENT && s.currentPt + 1 == LAST_SEGMENT && s.running) &&
      (s.running && !t.running ==>
        t.timeLeft == 0 && t.startTime == 0 && t.uiState == MainMenu && t.runState == OvenProfileSelect)
  {
  }

  /** The comparison uses the absolute tick truncated to 16 bits: one tick past
      65535 a segment whose next waypoint is at second 100 no longer advances. */
  lemma {:induction false} TruncatedTickStallsSegment()
    ensures var point := CurvePoint(100, 100, false);
      var p := Profile(DefaultProfile().name, [CurvePoint(0, 0, false), point, point, point, point, point]);
      var s := Initial(Profiles(1, [Some(p)] + seq(15, _ => None))).(running := true);
      Ramp(s, 0, 0x1_0000) == Ok(s.(fan := High, heater := High, timeLeft := 0x1_0000)) &&
      Ramp(s, 0, 100).value.currentPt == 1
  {
  }

  /** A run that reached the last segment keeps its segment index, so starting
      any profile again panics in the ramp of the next iteration. */
  lemma {:induction false} RestartAfterCompletionPanics(s: State, temp: u16, tick: u64)
    requires s.running && s.currentPt == LAST_SEGMENT && Inv(s) && s.profiles.slots[s.runIdx].Some?
    ensures Ramp(s, temp, tick) == Panic(SegmentIndexOutOfBounds)
  {
  }

  // ---------------------------------------------------------------------------
  // whole iterations

  /** The relay outputs: the heater changes only while a run is on at the start
      of the iteration, and the fan is never switched off. */
  lemma {:induction false} OutputsFollowRun(s: State, i: Inputs)
    requires Step(s, i).Ok?
    ensures var t := Step(s, i).value.state;
      (!s.running ==> t.heater == s.heater && t.fan == s.fan) &&
      (s.fan == High ==> t.fan == High)
  {
    StepParts(s, i);
    var s1 := Rotary(s, i.event);
    var s2 := Ramp(s1, i.Temp(), i.tick).value;
    assert s2.fan == High || s2.fan == s.fan;
    if s2.clocks % DISPLAY_UPDATE == 0 {
      MenuFrame(s2, i);
    }
  }

  /** A running oven stops only by completing its last segment: the cancel
      screen cannot stop it. */
  lemma {:induction false} RunStopsOnlyAtLastSegment(s: State, i: Inputs)
    requires Inv(s) && s.running && Step(s, i).Ok? && !Step(s, i).value.state.running
    ensures Step(s, i).value.state.currentPt == LAST_SEGMENT
  {
    StepParts(s, i);
    var s1 := Rotary(s, i.event);
    SegmentAdvance(s1, i.Temp(), i.tick);
    var s2 := Ramp(s1, i.Temp(), i.tick).value;
    if s2.clocks % DISPLAY_UPDATE == 0 {
      MenuFrame(s2, i);
    }
  }

  /** The store the loop works on never changes: the only write is the save
      button, which the save screen never reaches. */
  lemma {:induction false} StoreNeverChanges(s: State, i: Inputs)
    requires Step(s, i).Ok?
    ensures Step(s, i).value.state.profiles == s.profiles
  {
    StepParts(s, i);
    var s1 := Rotary(s, i.event);
    var s2 := Ramp(s1, i.Temp(), i.tick).value;
    assert s2.profiles == s.profiles;
    if s2.clocks % DISPLAY_UPDATE == 0 {
      MenuFrame(s2, i);
    }
  }

  /** The menu part runs only on every twentieth iteration and then follows the
      redraw discipline for the `changed` flag at the start of the iteration; the
      iteration counter advances by one unless the menu ended the iteration
      early. */
  lemma {:induction false} StepDisplayAndClock(s: State, i: Inputs)
    requires Step(s, i).Ok?
    ensures var sh := Step(s, i).value;
      (s.clocks % DISPLAY_UPDATE != 0 ==> sh.ops == [] && !sh.skipTick) &&
      (s.clocks % DISPLAY_UPDATE == 0 ==> Ui.Disciplined(sh.ops, s.changed)) &&
      sh.state.clocks == (if sh.skipTick then s.clocks else s.clocks + 1)
  {
    StepParts(s, i);
    var s1 := Rotary(s, i.event);
    var s2 := Ramp(s1, i.Temp(), i.tick).value;
    assert s2.clocks == s.clocks && s2.changed == s.changed;
    if s2.clocks % DISPLAY_UPDATE == 0 {
      MenuFrame(s2, i);
      Ui.FrameDisciplined(s.changed, true);
      Ui.FrameDisciplined(s.changed, false);
    }
  }
}
