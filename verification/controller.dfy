/** The main loop's locals as the fields of one object, and the loop body as its
    `Step` method, which updates those fields in place statement by statement.
    Each method is proved to produce exactly the state the corresponding
    `LoopSpec` function describes. */
module MainLoop {
  import opened Types
  import opened Store
  import Ui
  import opened LoopSpec
  import LoopProps

  class Controller {
    var uiState: UiState
    var editState: EditState
    var runState: RunState
    var counter: u8
    var changed: bool
    var direction: Direction
    var idx: u8
    var idx1: u8
    var editNum: u8
    var runIdx: u8
    var scratch: Profile
    var profiles: Profiles
    var running: bool
    var currentPt: nat
    var startTime: u64
    var timeLeft: u64
    var clocks: u128
    var fan: Level
    var heater: Level

    /** The fields as one value. */
    function Snapshot(): LoopSpec.State
      reads this
    {
      LoopSpec.State(uiState, editState, runState, counter, changed, direction,
                     idx, idx1, editNum, runIdx, scratch, profiles,
                     running, currentPt, startTime, timeLeft, clocks, fan, heater)
    }

    ghost predicate Valid()
      reads this
    {
      Inv(Snapshot())
    }

    /** Whether the fields and the returned values are the outcome `o`. */
    ghost predicate Reached(o: Result<Shown>, fault: Option<Fault>, ops: seq<Ui.DisplayOp>, skip: bool)
      reads this
    {
      match o
      case Panic(f) => fault == Some(f)
      case Ok(shown) => fault == None && Snapshot() == shown.state && ops == shown.ops && skip == shown.skipTick
    }

    /** The set-up before the loop, with the store decoded at boot. */
    constructor (stored: Profiles)
      ensures Snapshot() == Initial(stored) && Valid()
    {
      uiState, editState, runState := MainMenu, ProfileSelect, OvenProfileSelect;
      counter, changed, direction := 0, false, Clockwise;
      idx, idx1, editNum, runIdx := 0, 0, 7, 0;
      scratch, profiles := InitialScratch(), stored;
      running, currentPt, startTime, timeLeft, clocks := false, 0, 0, 0, 0;
      fan, heater := Low, Low;
    }

    /** One iteration of the loop. It panics exactly when `LoopSpec.Step` does;
        otherwise the new fields and the display commands are the ones it gives,
        and the index invariant is kept. */
    method Step(i: Inputs) returns (fault: Option<Fault>, ops: seq<Ui.DisplayOp>)
      modifies this
      ensures match LoopSpec.Step(old(Snapshot()), i)
              case Panic(f) => fault == Some(f)
              case Ok(shown) => fault == None && Snapshot() == shown.state && ops == shown.ops
      ensures old(Valid()) && fault.None? ==> Valid()
    {
      ghost var s0 := Snapshot();
      ops := [];
      RotaryUpdate(i.event);
      fault := FollowRamp(i.Temp(), i.tick);
      if fault.Some? {
        return;
      }
      var skip := false;
      if clocks % DISPLAY_UPDATE == 0 {
        fault, ops, skip := RunMenu(i);
        if fault.Some? {
          return;
        }
      }
      if !skip {
        if clocks == U128_MAX {
          fault := Some(ClockOverflow);
          return;
        }
        clocks := clocks + 1;
      }
      if Inv(s0) {
        LoopProps.StepKeepsInv(s0, i);
      }
    }

    method RotaryUpdate(event: Option<Direction>)
      modifies this
      ensures Snapshot() == Rotary(old(Snapshot()), event)
    {
      match event {
        case None =>
        case Some(d) =>
          direction := d;
          match d {
            case Clockwise =>
              if counter != 255 {
                counter := counter + 1;
              }
            case CounterClockwise =>
              if counter != 0 {
                counter := counter - 1;
              }
          }
      }
    }

    method FollowRamp(temp: u16, tick: u64) returns (fault: Option<Fault>)
      modifies this
      ensures match Ramp(old(Snapshot()), temp, tick)
              case Panic(f) => fault == Some(f)
              case Ok(t) => fault == None && Snapshot() == t
    {
      fault := None;
      if running {
        fan := High;
        if runIdx >= SLOT_COUNT {
          return Some(RunSlotIndexOutOfBounds);
        }
        match profiles.slots[runIdx] {
          case None =>
          case Some(profile) =>
            fault := FollowSegment(profile, temp, tick);
        }
      }
    }

    /** The segment part of the ramp, for the profile in the run slot. */
    method FollowSegment(profile: Profile, temp: u16, tick: u64) returns (fault: Option<Fault>)
      modifies this
      ensures match Segment(old(Snapshot()), profile, temp, tick)
              case Panic(f) => fault == Some(f)
              case Ok(t) => fault == None && Snapshot() == t
    {
      ghost var s := Snapshot();
      if currentPt + 1 >= POINT_COUNT {
        return Some(SegmentIndexOutOfBounds);
      }
      var next := profile.points[currentPt + 1];
      var here := profile.points[currentPt];
      if tick < startTime {
        return Some(ElapsedUnderflow);
      }
      timeLeft := tick - startTime;
      ghost var s2 := s.(timeLeft := tick - s.startTime);
      assert Snapshot() == s2;
      var target: u16;
      fault, target := SegmentSlope(here, next);
      if fault.Some? {
        return;
      }
      if target >= temp {
        heater := High;
      } else {
        heater := Low;
      }
      ghost var s3 := s2.(heater := if target >= temp then High else Low);
      assert Snapshot() == s3;
      AdvanceSegment(next, tick);
    }

    /** The five assignments both ends of a run perform. */
    method StopRun()
      modifies this
      ensures Snapshot() == Stopped(old(Snapshot()))
    {
      runState := OvenProfileSelect;
      uiState := MainMenu;
      running := false;
      timeLeft := 0;
      startTime := 0;
    }

    method AdvanceSegment(next: CurvePoint, tick: u64)
      modifies this
      ensures Snapshot() == Advance(old(Snapshot()), next, tick)
    {
      if next.timeSeconds <= tick % 0x1_0000 {
        currentPt := currentPt + 1;
        if currentPt >= LAST_SEGMENT {
          StopRun();
        }
      }
    }

    /** The slope of the segment from `here` to `next`. */
    static method SegmentSlope(here: CurvePoint, next: CurvePoint) returns (fault: Option<Fault>, target: u16)
      ensures match Slope(here, next)
              case Panic(f) => fault == Some(f)
              case Ok(q) => fault == None && target == q
    {
      target := 0;
      if next.temp < here.temp {
        return Some(TempDeltaUnderflow), target;
      }
      if next.timeSeconds < here.timeSeconds {
        return Some(TimeDeltaUnderflow), target;
      }
      if next.timeSeconds == here.timeSeconds {
        return Some(DivisionByZero), target;
      }
      fault, target := None, (next.temp - here.temp) / (next.timeSeconds - here.timeSeconds);
    }

    method RunMenu(i: Inputs) returns (fault: Option<Fault>, ops: seq<Ui.DisplayOp>, skip: bool)
      modifies this
      ensures Reached(Menu(old(Snapshot()), i), fault, ops, skip)
    {
      fault, skip := None, false;
      match uiState {
        case MainMenu =>
          ops := MainMenuScreen(i.button);
        case ProfileEdit =>
          match editState {
            case ProfileSelect =>
              ops := ProfileSelectScreen(i.button);
            case ProfileElementSelect =>
              ops := ElementSelectScreen(i.button);
            case ProfileNameEdit =>
              fault, ops := NameEditScreen(i.button, i.altButton);
            case ProfilePointSelect =>
              fault, ops := PointSelectScreen(i.button);
            case ProfilePointSelectElementEdit =>
              fault, ops := PointElementScreen(i.button);
            case ProfilePointTempEdit =>
              fault, ops := PointFieldScreen(TempField, i.button);
            case ProfilePointTimeEdit =>
              fault, ops := PointFieldScreen(TimeField, i.button);
            case ProfilePointDisabledEdit =>
              fault, ops := PointFieldScreen(DisabledField, i.button);
            case ProfileExitConfirmMenu =>
              ops := ExitConfirmScreen(i.button);
            case ProfileWriteConfirmMenu =>
              ops := WriteConfirmScreen(i.button);
          }
        case OvenRun =>
          match runState {
            case OvenProfileSelect =>
              fault, ops, skip := RunSelectScreen(i.button);
            case OvenProfileRunConfirm =>
              fault, ops := RunConfirmScreen(i.button, i.tick);
            case OvenProfileRunningMenu =>
              ops := RunningScreen(i.button);
            case OvenProfileCancelRunningMenu =>
              ops := CancelScreen(i.button);
          }
      }
    }

    method MainMenuScreen(button: bool) returns (ops: seq<Ui.DisplayOp>)
      modifies this
      ensures Reached(Ok(MainMenuStep(old(Snapshot()), button)), None, ops, false)
    {
      ops := Ui.MainMenu(counter, changed).ops;
      if changed {
        changed := false;
      }
      if button {
        if counter == 0 {
          uiState := OvenRun;
          changed := true;
        } else if counter == 1 {
          uiState := ProfileEdit;
          changed := true;
        } else {
          counter := 0;
        }
        counter := 0;
      }
    }

    method ProfileSelectScreen(button: bool) returns (ops: seq<Ui.DisplayOp>)
      modifies this
      ensures Reached(Ok(ProfileSelectStep(old(Snapshot()), button)), None, ops, false)
    {
      var rst := Ui.SelectEditProfileMenu(counter, profiles, changed);
      ops := rst.ops;
      if rst.result {
        counter := 0;
      }
      if changed {
        changed := false;
      }
      if button {
        ProfileSelectPress();
      }
    }

    method ProfileSelectPress()
      modifies this
      ensures Snapshot() == ProfileSelectButton(old(Snapshot()))
    {
      if counter >= 16 {
        LeaveEditorPress();
      }
      editNum := counter;
      scratch := UnwrapOrDefault(profiles.slots[counter]);
      counter := 0;
      editState := ProfileElementSelect;
      changed := true;
    }

    method LeaveEditorPress()
      modifies this
      ensures Snapshot() == LeaveEditor(old(Snapshot()))
    {
      counter := 0;
      idx := 0;
      idx1 := 0;
      scratch := DefaultProfile();
      changed := true;
      editState := ProfileSelect;
      uiState := MainMenu;
    }

    method ElementSelectScreen(button: bool) returns (ops: seq<Ui.DisplayOp>)
      modifies this
      ensures Reached(Ok(ElementSelectStep(old(Snapshot()), button)), None, ops, false)
    {
      ops := Ui.ChoiceMenu(counter, 4, changed).ops;
      if changed {
        changed := false;
      }
      if button {
        ElementSelectPress();
      }
    }

    method ElementSelectPress()
      modifies this
      ensures Snapshot() == ElementSelectButton(old(Snapshot()))
    {
      if counter == 0 {
        editState := ProfileNameEdit;
        changed := true;
      } else if counter == 1 {
        editState := ProfilePointSelect;
        changed := true;
      } else if counter == 2 {
        editState := ProfileWriteConfirmMenu;
        changed := true;
      } else if counter == 3 {
        editState := ProfileExitConfirmMenu;
        changed := true;
      } else {
        counter := 0;
      }
      counter := 0;
    }

    method NameEditScreen(button: bool, altButton: bool) returns (fault: Option<Fault>, ops: seq<Ui.DisplayOp>)
      modifies this
      ensures Reached(NameEditStep(old(Snapshot()), button, altButton), fault, ops, false)
    {
      fault := None;
      ops := Ui.EditProfileNameMenu(counter, changed).ops;
      if changed {
        changed := false;
      }
      if altButton {
        fault := CommitPress();
        if fault.Some? {
          return;
        }
      }
      if button {
        counter := 0;
        idx := 0;
        changed := true;
        editState := ProfileElementSelect;
      }
    }

    method CommitPress() returns (fault: Option<Fault>)
      modifies this
      ensures match CommitCharacter(old(Snapshot()))
              case Panic(f) => fault == Some(f)
              case Ok(t) => fault == None && Snapshot() == t
    {
      if counter >= |Ui.CHARACTERS| {
        return Some(CharacterIndexOutOfBounds);
      }
      var ch := Ui.CHARACTERS[counter];
      if idx >= NAME_LEN {
        return Some(NameIndexOutOfBounds);
      }
      scratch := scratch.(name := scratch.name[idx := ch]);
      idx := idx + 1;
      if idx >= 6 {
        idx := 0;
      }
      counter := 0;
      fault := None;
    }

    method PointSelectScreen(button: bool) returns (fault: Option<Fault>, ops: seq<Ui.DisplayOp>)
      modifies this
      ensures Reached(PointSelectStep(old(Snapshot()), button), fault, ops, false)
    {
      var r := Ui.PointsSelectMenu(counter, changed);
      if r.Crashed? {
        return Some(r.fault), [];
      }
      fault, ops := None, r.ops;
      if changed {
        changed := false;
      }
      if button {
        PointSelectPress();
      }
    }

    method PointSelectPress()
      modifies this
      ensures Snapshot() == PointSelectButton(old(Snapshot()))
    {
      if counter <= 5 {
        idx1 := counter;
        changed := true;
        counter := 0;
        editState := ProfilePointSelectElementEdit;
      } else if counter == 6 {
        idx1 := 0;
        changed := true;
        counter := 0;
        editState := ProfileElementSelect;
      } else {
        counter := 0;
      }
      counter := 0;
    }

    method PointElementScreen(button: bool) returns (fault: Option<Fault>, ops: seq<Ui.DisplayOp>)
      modifies this
      ensures Reached(PointElementStep(old(Snapshot()), button), fault, ops, false)
    {
      if idx1 >= POINT_COUNT {
        return Some(PointIndexOutOfBounds), [];
      }
      fault, ops := None, Ui.ChoiceMenu(counter, 4, changed).ops;
      if changed {
        changed := false;
      }
      if button {
        PointElementPress();
      }
    }

    method PointElementPress()
      modifies this
      ensures Snapshot() == PointElementButton(old(Snapshot()))
    {
      if counter == 0 {
        changed := true;
        counter := 0;
        editState := ProfilePointTempEdit;
      } else if counter == 1 {
        changed := true;
        counter := 0;
        editState := ProfilePointTimeEdit;
      } else if counter == 2 {
        changed := true;
        counter := 0;
        editState := ProfilePointDisabledEdit;
      } else if counter == 3 {
        changed := true;
        counter := 0;
        editState := ProfilePointSelect;
      } else {
        counter := 0;
      }
      counter := 0;
    }

    method PointFieldScreen(field: PointField, button: bool) returns (fault: Option<Fault>, ops: seq<Ui.DisplayOp>)
      modifies this
      ensures Reached(PointFieldStep(old(Snapshot()), field, button), fault, ops, false)
    {
      if idx1 >= POINT_COUNT {
        return Some(PointIndexOutOfBounds), [];
      }
      var rst := Ui.PointFieldMenu(counter, changed);
      fault, ops := None, rst.ops;
      if rst.result {
        counter := 0;
      }
      if changed {
        changed := false;
      }
      if button {
        fault := PointFieldPress(field);
      }
    }

    method PointFieldPress(field: PointField) returns (fault: Option<Fault>)
      modifies this
      ensures match PointFieldButton(old(Snapshot()), field)
              case Panic(f) => fault == Some(f)
              case Ok(t) => fault == None && Snapshot() == t
    {
      if idx >= POINT_COUNT {
        return Some(PointIndexOutOfBounds);
      }
      var point := SetField(scratch.points[idx], field, counter, direction);
      scratch := scratch.(points := scratch.points[idx := point]);
      counter := 0;
      changed := true;
      editState := ProfilePointSelectElementEdit;
      fault := None;
    }

    method ExitConfirmScreen(button: bool) returns (ops: seq<Ui.DisplayOp>)
      modifies this
      ensures Reached(Ok(ExitConfirmStep(old(Snapshot()), button)), None, ops, false)
    {
      ops := Ui.ChoiceMenu(counter, 2, changed).ops;
      if changed {
        changed := false;
      }
      if button {
        ExitConfirmPress();
      }
    }

    method ExitConfirmPress()
      modifies this
      ensures Snapshot() == ExitConfirmButton(old(Snapshot()))
    {
      if counter == 0 {
        counter := 0;
        changed := true;
        editState := ProfileElementSelect;
      } else if counter == 1 {
        idx := 0;
        idx1 := 0;
        scratch := DefaultProfile();
        counter := 0;
        changed := true;
        editState := ProfileSelect;
      } else {
        counter := 0;
      }
    }

    method WriteConfirmScreen(button: bool) returns (ops: seq<Ui.DisplayOp>)
      modifies this
      ensures Reached(Ok(WriteConfirmStep(old(Snapshot()), button)), None, ops, false)
    {
      var rst := Ui.ChoiceMenu(counter, 2, changed);
      ops := rst.ops;
      if rst.result {
        counter := 0;
      }
      if changed {
        changed := false;
      }
      if button {
        WriteConfirmPress();
      }
    }

    method WriteConfirmPress()
      modifies this
      ensures Snapshot() == WriteConfirmButton(old(Snapshot()))
    {
      if counter == 0 {
        counter := 0;
        changed := true;
        editState := ProfileElementSelect;
      } else if counter == 1 {
        idx := 0;
        idx1 := 0;
        var slots := profiles.slots;
        assert |slots| == SLOT_COUNT;
        profiles := profiles.(slots := slots[idx := Some(scratch)]);
        scratch := DefaultProfile();
        counter := 0;
        changed := true;
        editState := ProfileSelect;
      } else {
        counter := 0;
      }
    }

    method RunSelectScreen(button: bool) returns (fault: Option<Fault>, ops: seq<Ui.DisplayOp>, skip: bool)
      modifies this
      ensures Reached(RunSelectStep(old(Snapshot()), button), fault, ops, skip)
    {
      var r := Ui.HeatMenu(counter, profiles, changed);
      if r.Crashed? {
        return Some(r.fault), [], false;
      }
      fault, ops, skip := None, r.ops, false;
      if changed {
        changed := false;
      }
      if button {
        skip := RunSelectPress();
      }
    }

    method RunSelectPress() returns (skip: bool)
      modifies this
      ensures (Snapshot(), skip) == RunSelectButton(old(Snapshot()))
    {
      skip := false;
      if counter <= 15 {
        if profiles.slots[counter].None? {
          counter := 0;
          runIdx := 0;
          changed := true;
          uiState := MainMenu;
          return true;
        }
        runIdx := counter;
        runState := OvenProfileRunConfirm;
        changed := true;
        counter := 0;
      } else {
        counter := 0;
      }
    }

    method RunConfirmScreen(button: bool, tick: u64) returns (fault: Option<Fault>, ops: seq<Ui.DisplayOp>)
      modifies this
      ensures Reached(RunConfirmStep(old(Snapshot()), button, tick), fault, ops, false)
    {
      if runIdx >= SLOT_COUNT {
        return Some(RunSlotIndexOutOfBounds), [];
      }
      if profiles.slots[runIdx].None? {
        return Some(EmptySlotUnwrap), [];
      }
      fault, ops := None, Ui.ChoiceMenu(counter, 2, changed).ops;
      if changed {
        changed := false;
      }
      if button {
        RunConfirmPress(tick);
      }
    }

    method RunConfirmPress(tick: u64)
      modifies this
      ensures Snapshot() == RunConfirmButton(old(Snapshot()), tick)
    {
      if counter == 0 {
        runState := OvenProfileSelect;
        counter := 0;
        changed := true;
      } else if counter == 1 {
        runState := OvenProfileRunningMenu;
        counter := 0;
        changed := true;
        running := true;
        startTime := tick;
      } else {
        counter := 0;
      }
    }

    method RunningScreen(button: bool) returns (ops: seq<Ui.DisplayOp>)
      modifies this
      ensures Reached(Ok(RunningStep(old(Snapshot()), button)), None, ops, false)
    {
      ops := Ui.HeatingMenu(changed).ops;
      if changed {
        changed := false;
      }
      if button {
        runState := OvenProfileCancelRunningMenu;
      }
    }

    method CancelScreen(button: bool) returns (ops: seq<Ui.DisplayOp>)
      modifies this
      ensures Reached(Ok(CancelStep(old(Snapshot()), button)), None, ops, false)
    {
      var rst := Ui.ChoiceMenu(counter, 2, changed);
      ops := rst.ops;
      if changed {
        changed := false;
      }
      if rst.result {
        counter := 0;
      }
      if button {
        CancelPress();
      }
    }

    method CancelPress()
      modifies this
      ensures Snapshot() == CancelButton(old(Snapshot()))
    {
      if counter == 0 {
        counter := 0;
        runState := OvenProfileRunningMenu;
      } else if counter == 1 {
        counter := 0;
        StopRun();
      } else {
        counter := 0;
      }
    }
  }
}
