/** One iteration of the firmware's main loop, as a pure function of the loop's
    local state and the iteration's inputs. The iteration has three parts, in
    order: the saturating rotary counter, the ramp follower (only while the oven
    runs) and the nested menu state machine (only on every 20th iteration). Every
    panic of the source is a `Panic` result. */
module LoopSpec {
  import opened Types
  import opened Store
  import Ui
  import Thermocouple

  /** The menu runs when the iteration counter is a multiple of this. */
  const DISPLAY_UPDATE := 20
  /** The ramp stops once the segment index reaches this value. */
  const LAST_SEGMENT := 5

  datatype UiState = MainMenu | ProfileEdit | OvenRun

  datatype EditState =
    | ProfileSelect
    | ProfileElementSelect
    | ProfileNameEdit
    | ProfilePointSelect
    | ProfilePointSelectElementEdit
    | ProfilePointTempEdit
    | ProfilePointTimeEdit
    | ProfilePointDisabledEdit
    | ProfileExitConfirmMenu
    | ProfileWriteConfirmMenu

  datatype RunState =
    | OvenProfileSelect
    | OvenProfileRunConfirm
    | OvenProfileRunningMenu
    | OvenProfileCancelRunningMenu

  /** The level last written to a relay pin. */
  datatype Level = Low | High

  /** The loop's local variables. `counter` is `ui_counter`, `idx` the name
      cursor, `idx1` the selected waypoint, `editNum` `profile_edit_num`,
      `runIdx` `run_profile_idx`, `scratch` the profile being edited, `running`
      `running_oven`, `currentPt` `current_pt`, `timeLeft` `time_left` (the
      elapsed ticks of the run), and `fan`/`heater` the relay outputs. */
  datatype State = State(
    uiState: UiState, editState: EditState, runState: RunState,
    counter: u8, changed: bool, direction: Direction,
    idx: u8, idx1: u8, editNum: u8, runIdx: u8,
    scratch: Profile, profiles: Profiles,
    running: bool, currentPt: nat, startTime: u64, timeLeft: u64, clocks: u128,
    fan: Level, heater: Level)

  /** What one iteration samples: the rotary event, the primary and secondary
      buttons, the two bytes the thermocouple converter sends over SPI, and the
      interrupt-driven tick (one value serves both places that load it). */
  datatype Inputs = Inputs(event: Option<Direction>, button: bool, altButton: bool,
                           spiFirst: bv8, spiSecond: bv8, tick: u64)
  {
    /** `read_temperature()` of the iteration: never more than 1023. */
    function Temp(): (t: u16)
      ensures t <= 1023
    {
      Thermocouple.Reading(spiFirst, spiSecond) as int
    }
  }

  /** The state after the menu part of an iteration, the display commands it
      issued, and whether it ended with `continue` (which skips the tick count). */
  datatype Shown = Shown(state: State, ops: seq<Ui.DisplayOp>, skipTick: bool)

  /** The invariant of the loop's indices: the name cursor and the selected
      waypoint index a six-element array, the run index a sixteen-slot array, and
      the segment index never passes the last segment. */
  predicate Inv(s: State) {
    s.idx < NAME_LEN && s.idx1 < POINT_COUNT && s.runIdx < SLOT_COUNT && s.currentPt <= LAST_SEGMENT
  }

  /** The state when the loop is entered, given the store decoded at boot. */
  function Initial(profiles: Profiles): (s: State)
    ensures Inv(s) && s.scratch == InitialScratch() && s.profiles == profiles && !s.running
  {
    State(MainMenu, ProfileSelect, OvenProfileSelect,
          0, false, Clockwise,
          0, 0, 7, 0,
          InitialScratch(), profiles,
          false, 0, 0, 0, 0,
          Low, Low)
  }

  // ---------------------------------------------------------------------------
  // (a) the rotary counter

  /** A rotary event records its direction and moves the counter one step that
      way, saturating at 0 and 255; without an event nothing changes. */
  function Rotary(s: State, event: Option<Direction>): (t: State)
    ensures t == s.(counter := t.counter, direction := t.direction)
    ensures event.None? ==> t == s
    ensures event == Some(Clockwise) ==>
      t.direction == Clockwise && t.counter == if s.counter < U8_MAX then s.counter + 1 else U8_MAX
    ensures event == Some(CounterClockwise) ==>
      t.direction == CounterClockwise && t.counter == if s.counter > 0 then s.counter - 1 else 0
  {
    match event
    case None => s
    case Some(d) =>
      var c := match d
        case Clockwise => if s.counter != 255 then s.counter + 1 else s.counter
        case CounterClockwise => if s.counter != 0 then s.counter - 1 else s.counter;
      s.(direction := d, counter := c)
  }

  // ---------------------------------------------------------------------------
  // (b) the ramp follower

  /** While the oven runs, the fan is switched on and, when the run slot holds a
      profile, the current segment is followed. An empty run slot changes nothing
      else. */
  function Ramp(s: State, temp: u16, tick: u64): Result<State> {
    if !s.running then Ok(s)
    else
      var s1 := s.(fan := High);
      if s1.runIdx >= SLOT_COUNT then Panic(RunSlotIndexOutOfBounds)
      else
        match s1.profiles.slots[s1.runIdx]
        case None => Ok(s1)
        case Some(profile) => Segment(s1, profile, temp, tick)
  }

  /** The "slope" the heater decision compares with the temperature: the rise
      of the segment divided by its duration, in unsigned 16-bit arithmetic. */
  function Slope(here: CurvePoint, next: CurvePoint): Result<u16> {
    if next.temp < here.temp then Panic(TempDeltaUnderflow)
    else if next.timeSeconds < here.timeSeconds then Panic(TimeDeltaUnderflow)
    else if next.timeSeconds == here.timeSeconds then Panic(DivisionByZero)
    else Ok((next.temp - here.temp) / (next.timeSeconds - here.timeSeconds))
  }

  /** One evaluation of the segment from waypoint `currentPt` to the next: the
      elapsed ticks are recorded, the heater is switched on when the slope is at
      least the measured temperature, and the segment index advances when the next
      waypoint's time is not after the tick truncated to 16 bits. Reaching the last
      segment ends the run. The `disabled` flags are not consulted. */
  function Segment(s: State, profile: Profile, temp: u16, tick: u64): Result<State> {
    if s.currentPt + 1 >= POINT_COUNT then Panic(SegmentIndexOutOfBounds)
    else
      var next := profile.points[s.currentPt + 1];
      var here := profile.points[s.currentPt];
      if tick < s.startTime then Panic(ElapsedUnderflow)
      else
        var s2 := s.(timeLeft := tick - s.startTime);
        match Slope(here, next)
        case Panic(f) => Panic(f)
        case Ok(target) =>
          var s3 := s2.(heater := if target >= temp then High else Low);
          Ok(Advance(s3, next, tick))
  }

  /** The end of a run, by completion or by cancellation: the oven screens are
      left for the main menu and the run's times are cleared. */
  function Stopped(s: State): State {
    s.(runState := OvenProfileSelect, uiState := MainMenu, running := false, timeLeft := 0, startTime := 0)
  }

  /** Moving to the next segment once its waypoint's time has come, and ending
      the run after the last one. */
  function Advance(s: State, next: CurvePoint, tick: u64): State {
    if next.timeSeconds <= tick % 0x1_0000 then
      var s1 := s.(currentPt := s.currentPt + 1);
      if s1.currentPt >= LAST_SEGMENT then Stopped(s1) else s1
    else s
  }

  // ---------------------------------------------------------------------------
  // (c) the menu state machine

  /** The menu part of an iteration: one renderer call and the button handling of
      the screen the state names. */
  function Menu(s: State, i: Inputs): Result<Shown> {
    match s.uiState
    case MainMenu => Ok(MainMenuStep(s, i.button))
    case ProfileEdit => EditStep(s, i)
    case OvenRun => RunStep(s, i)
  }

  function MainMenuStep(s: State, button: bool): Shown {
    var r := Ui.MainMenu(s.counter, s.changed);
    var s1 := s.(changed := false);
    var s2 :=
      if !button then s1
      else if s1.counter == 0 then s1.(uiState := OvenRun, changed := true, counter := 0)
      else if s1.counter == 1 then s1.(uiState := ProfileEdit, changed := true, counter := 0)
      else s1.(counter := 0);
    Shown(s2, r.ops, false)
  }

  function EditStep(s: State, i: Inputs): Result<Shown> {
    match s.editState
    case ProfileSelect => Ok(ProfileSelectStep(s, i.button))
    case ProfileElementSelect => Ok(ElementSelectStep(s, i.button))
    case ProfileNameEdit => NameEditStep(s, i.button, i.altButton)
    case ProfilePointSelect => PointSelectStep(s, i.button)
    case ProfilePointSelectElementEdit => PointElementStep(s, i.button)
    case ProfilePointTempEdit => PointFieldStep(s, TempField, i.button)
    case ProfilePointTimeEdit => PointFieldStep(s, TimeField, i.button)
    case ProfilePointDisabledEdit => PointFieldStep(s, DisabledField, i.button)
    case ProfileExitConfirmMenu => Ok(ExitConfirmStep(s, i.button))
    case ProfileWriteConfirmMenu => Ok(WriteConfirmStep(s, i.button))
  }

  /** Choosing a slot to edit. The renderer's `true` (counter below 16) resets
      the counter to 0; a counter of 16 or more means "go back", which resets the
      editor and selects the main menu, and then falls through into the slot load. */
  function ProfileSelectStep(s: State, button: bool): Shown {
    var r := Ui.SelectEditProfileMenu(s.counter, s.profiles, s.changed);
    var s1 := s.(counter := if r.result then 0 else s.counter, changed := false);
    Shown(if button then ProfileSelectButton(s1) else s1, r.ops, false)
  }

  /** The "go back" entry of slot selection: both cursors and the scratch
      profile are reset and the main menu is selected. */
  function LeaveEditor(s: State): State {
    s.(counter := 0, idx := 0, idx1 := 0, scratch := DefaultProfile(), changed := true,
       editState := ProfileSelect, uiState := MainMenu)
  }

  function ProfileSelectButton(s: State): State {
    var s1 := if s.counter >= 16 then LeaveEditor(s) else s;
    var s2 := s1.(editNum := s1.counter, scratch := UnwrapOrDefault(s1.profiles.slots[s1.counter]));
    s2.(counter := 0, editState := ProfileElementSelect, changed := true)
  }

  /** The Name / Points / Save / Exit menu. */
  function ElementSelectStep(s: State, button: bool): Shown {
    var r := Ui.ChoiceMenu(s.counter, 4, s.changed);
    var s1 := s.(changed := false);
    Shown(if button then ElementSelectButton(s1) else s1, r.ops, false)
  }

  function ElementSelectButton(s: State): State {
    var s1 :=
      if s.counter == 0 then s.(editState := ProfileNameEdit, changed := true)
      else if s.counter == 1 then s.(editState := ProfilePointSelect, changed := true)
      else if s.counter == 2 then s.(editState := ProfileWriteConfirmMenu, changed := true)
      else if s.counter == 3 then s.(editState := ProfileExitConfirmMenu, changed := true)
      else s.(counter := 0);
    s1.(counter := 0)
  }

  /** Name editing: the secondary button commits `CHARACTERS[counter]` at the
      cursor and advances the cursor, wrapping after six; the primary button
      returns to the element menu. */
  function NameEditStep(s: State, button: bool, altButton: bool): Result<Shown> {
    var r := Ui.EditProfileNameMenu(s.counter, s.changed);
    var s1 := s.(changed := false);
    match (if altButton then CommitCharacter(s1) else Ok(s1))
    case Panic(f) => Panic(f)
    case Ok(s2) =>
      var s3 :=
        if button then s2.(counter := 0, idx := 0, changed := true, editState := ProfileElementSelect)
        else s2;
      Ok(Shown(s3, r.ops, false))
  }

  function CommitCharacter(s: State): Result<State> {
    if s.counter >= |Ui.CHARACTERS| then Panic(CharacterIndexOutOfBounds)
    else if s.idx >= NAME_LEN then Panic(NameIndexOutOfBounds)
    else
      var name := s.scratch.name[s.idx := Ui.CHARACTERS[s.counter]];
      var next := s.idx + 1;
      Ok(s.(scratch := s.scratch.(name := name), idx := if next >= 6 then 0 else next, counter := 0))
  }

  /** Waypoint selection. The renderer panics at counter 6, before the button is
      looked at. */
  function PointSelectStep(s: State, button: bool): Result<Shown> {
    var r := Ui.PointsSelectMenu(s.counter, s.changed);
    match r
    case Crashed(f) => Panic(f)
    case Drawn(_, ops) =>
      var s1 := s.(changed := false);
      Ok(Shown(if button then PointSelectButton(s1) else s1, ops, false))
  }

  function PointSelectButton(s: State): State {
    var s1 :=
      if s.counter <= 5 then
        s.(idx1 := s.counter, changed := true, counter := 0, editState := ProfilePointSelectElementEdit)
      else if s.counter == 6 then
        s.(idx1 := 0, changed := true, counter := 0, editState := ProfileElementSelect)
      else s.(counter := 0);
    s1.(counter := 0)
  }

  /** The Temp / Time / Disabled / Back menu of the selected waypoint. */
  function PointElementStep(s: State, button: bool): Result<Shown> {
    if s.idx1 >= POINT_COUNT then Panic(PointIndexOutOfBounds)
    else
      var r := Ui.ChoiceMenu(s.counter, 4, s.changed);
      var s1 := s.(changed := false);
      Ok(Shown(if button then PointElementButton(s1) else s1, r.ops, false))
  }

  function PointElementButton(s: State): State {
    var s1 :=
      if s.counter == 0 then s.(changed := true, counter := 0, editState := ProfilePointTempEdit)
      else if s.counter == 1 then s.(changed := true, counter := 0, editState := ProfilePointTimeEdit)
      else if s.counter == 2 then s.(changed := true, counter := 0, editState := ProfilePointDisabledEdit)
      else if s.counter == 3 then s.(changed := true, counter := 0, editState := ProfilePointSelect)
      else s.(counter := 0);
    s1.(counter := 0)
  }

  /** The field a waypoint editor changes. */
  datatype PointField = TempField | TimeField | DisabledField

  /** The new value of the edited waypoint: temperature and time take the
      counter, the flag takes "the last rotary event was clockwise". */
  function SetField(p: CurvePoint, field: PointField, counter: u8, direction: Direction): CurvePoint {
    match field
    case TempField => p.(temp := counter)
    case TimeField => p.(timeSeconds := counter)
    case DisabledField => p.(disabled := direction == Clockwise)
  }

  /** The three waypoint editors. The renderer (called with waypoint `idx1`)
      resets the counter unless it is 255; the button writes waypoint `idx` — the
      name cursor, not the selected waypoint — and returns to the waypoint menu. */
  function PointFieldStep(s: State, field: PointField, button: bool): Result<Shown> {
    if s.idx1 >= POINT_COUNT then Panic(PointIndexOutOfBounds)
    else
      var r := Ui.PointFieldMenu(s.counter, s.changed);
      var s1 := s.(counter := if r.result then 0 else s.counter, changed := false);
      if !button then Ok(Shown(s1, r.ops, false))
      else
        match PointFieldButton(s1, field)
        case Panic(f) => Panic(f)
        case Ok(s2) => Ok(Shown(s2, r.ops, false))
  }

  /** The editor's button: the counter goes into waypoint `idx`. */
  function PointFieldButton(s: State, field: PointField): Result<State> {
    if s.idx >= POINT_COUNT then Panic(PointIndexOutOfBounds)
    else
      var points := s.scratch.points[s.idx := SetField(s.scratch.points[s.idx], field, s.counter, s.direction)];
      Ok(s.(scratch := s.scratch.(points := points), counter := 0, changed := true,
            editState := ProfilePointSelectElementEdit))
  }

  /** Leaving the editor: 0 goes back to the element menu, 1 discards the scratch
      profile and returns to slot selection. */
  function ExitConfirmStep(s: State, button: bool): Shown {
    var r := Ui.ChoiceMenu(s.counter, 2, s.changed);
    var s1 := s.(changed := false);
    Shown(if button then ExitConfirmButton(s1) else s1, r.ops, false)
  }

  function ExitConfirmButton(s: State): State {
    if s.counter == 0 then s.(counter := 0, changed := true, editState := ProfileElementSelect)
    else if s.counter == 1 then
      s.(idx := 0, idx1 := 0, scratch := DefaultProfile(), counter := 0, changed := true,
         editState := ProfileSelect)
    else s.(counter := 0)
  }

  /** Saving: the renderer always returns true, so the counter is 0 by the time
      the button is looked at. */
  function WriteConfirmStep(s: State, button: bool): Shown {
    var r := Ui.ChoiceMenu(s.counter, 2, s.changed);
    var s1 := s.(counter := if r.result then 0 else s.counter, changed := false);
    Shown(if button then WriteConfirmButton(s1) else s1, r.ops, false)
  }

  /** The save menu's button: 0 returns to the element menu; 1 zeroes `idx`,
      then stores the scratch profile into slot `idx` (so slot 0), resets the
      scratch profile and returns to slot selection. */
  function WriteConfirmButton(s: State): State {
    if s.counter == 0 then s.(counter := 0, changed := true, editState := ProfileElementSelect)
    else if s.counter == 1 then
      var s1 := s.(idx := 0, idx1 := 0);
      var s2 := s1.(profiles := s1.profiles.(slots := s1.profiles.slots[s1.idx := Some(s1.scratch)]));
      s2.(scratch := DefaultProfile(), counter := 0, changed := true, editState := ProfileSelect)
    else s.(counter := 0)
  }

  function RunStep(s: State, i: Inputs): Result<Shown> {
    match s.runState
    case OvenProfileSelect => RunSelectStep(s, i.button)
    case OvenProfileRunConfirm => RunConfirmStep(s, i.button, i.tick)
    case OvenProfileRunningMenu => Ok(RunningStep(s, i.button))
    case OvenProfileCancelRunningMenu => Ok(CancelStep(s, i.button))
  }

  /** Choosing a profile to run. The renderer indexes the slot array with the
      counter unchecked. */
  function RunSelectStep(s: State, button: bool): Result<Shown> {
    var r := Ui.HeatMenu(s.counter, s.profiles, s.changed);
    match r
    case Crashed(f) => Panic(f)
    case Drawn(_, ops) =>
      var s1 := s.(changed := false);
      if !button then Ok(Shown(s1, ops, false))
      else
        var (s2, skip) := RunSelectButton(s1);
        Ok(Shown(s2, ops, skip))
  }

  /** An empty slot returns to the main menu and ends the iteration with
      `continue`; an occupied one is remembered and asks for confirmation. */
  function RunSelectButton(s: State): (State, bool) {
    if s.counter <= 15 then
      if s.profiles.slots[s.counter].None? then
        (s.(counter := 0, runIdx := 0, changed := true, uiState := MainMenu), true)
      else
        (s.(runIdx := s.counter, runState := OvenProfileRunConfirm, changed := true, counter := 0), false)
    else (s.(counter := 0), false)
  }

  /** Confirming a run: the renderer unwraps the chosen slot; 1 starts the run at
      the current tick, without resetting the segment index. */
  function RunConfirmStep(s: State, button: bool, tick: u64): Result<Shown> {
    if s.runIdx >= SLOT_COUNT then Panic(RunSlotIndexOutOfBounds)
    else if s.profiles.slots[s.runIdx].None? then Panic(EmptySlotUnwrap)
    else
      var r := Ui.ChoiceMenu(s.counter, 2, s.changed);
      var s1 := s.(changed := false);
      Ok(Shown(if button then RunConfirmButton(s1, tick) else s1, r.ops, false))
  }

  function RunConfirmButton(s: State, tick: u64): State {
    if s.counter == 0 then s.(runState := OvenProfileSelect, counter := 0, changed := true)
    else if s.counter == 1 then
      s.(runState := OvenProfileRunningMenu, counter := 0, changed := true, running := true, startTime := tick)
    else s.(counter := 0)
  }

  /** The live screen of a run: any press asks whether to cancel. */
  function RunningStep(s: State, button: bool): Shown {
    var r := Ui.HeatingMenu(s.changed);
    var s1 := s.(changed := false);
    Shown(if button then s1.(runState := OvenProfileCancelRunningMenu) else s1, r.ops, false)
  }

  /** Cancelling a run: the renderer always returns true, so the counter is 0 by
      the time the button is looked at. */
  function CancelStep(s: State, button: bool): Shown {
    var r := Ui.ChoiceMenu(s.counter, 2, s.changed);
    var s1 := s.(changed := false);
    var s2 := s1.(counter := if r.result then 0 else s1.counter);
    Shown(if button then CancelButton(s2) else s2, r.ops, false)
  }

  /** The cancel menu's button: 0 resumes the live screen; 1 stops the run and
      returns to the main menu. */
  function CancelButton(s: State): State {
    if s.counter == 0 then s.(counter := 0, runState := OvenProfileRunningMenu)
    else if s.counter == 1 then Stopped(s.(counter := 0))
    else s.(counter := 0)
  }

  // ---------------------------------------------------------------------------
  // the whole iteration

  /** One loop iteration. The menu runs only when the iteration counter is a
      multiple of `DISPLAY_UPDATE`; the counter then advances by one unless the
      menu ended the iteration with `continue`. */
  function Step(s: State, i: Inputs): Result<Shown> {
    var s1 := Rotary(s, i.event);
    match Ramp(s1, i.Temp(), i.tick)
    case Panic(f) => Panic(f)
    case Ok(s2) =>
      var m := if s2.clocks % DISPLAY_UPDATE == 0 then Menu(s2, i) else Ok(Shown(s2, [], false));
      match m
      case Panic(f) => Panic(f)
      case Ok(shown) =>
        if shown.skipTick then Ok(shown)
        else if shown.state.clocks == U128_MAX then Panic(ClockOverflow)
        else Ok(shown.(state := shown.state.(clocks := shown.state.clocks + 1)))
  }
}
