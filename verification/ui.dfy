/** The menu renderers, reduced to what the control loop can observe of them: the
    boolean each returns, whether it panics, and the sequence of display commands
    it issues (the text itself is abstracted to a single `Text` command). */
module Ui {
  import opened Types
  import opened Store

  /** The display collaborator's commands: clear, the header line, a cursor move
      and the text of the second line. */
  datatype DisplayOp = Clear | Header | Position(col: nat, row: nat) | Text

  /** What one call of a renderer does: it draws and returns a flag, or panics. */
  datatype Render = Drawn(result: bool, ops: seq<DisplayOp>) | Crashed(fault: Fault)

  /** The letters a name can be spelled with, in rotary order. */
  const CHARACTERS: seq<u8> := [
    'a' as u8, 'b' as u8, 'c' as u8, 'd' as u8, 'e' as u8, 'f' as u8, 'g' as u8, 'h' as u8,
    'i' as u8, 'j' as u8, 'k' as u8, 'l' as u8, 'm' as u8, 'n' as u8, 'o' as u8, 'p' as u8,
    'q' as u8, 'r' as u8, 's' as u8, 't' as u8, 'u' as u8, 'v' as u8, 'w' as u8, 'x' as u8,
    'y' as u8, 'z' as u8, '1' as u8, '2' as u8, '3' as u8, '4' as u8, '5' as u8, '6' as u8,
    '7' as u8, '8' as u8, '9' as u8, '0' as u8]

  /** The alphabet is the 26 lower-case letters in order, then the digits 1 to 9,
      then 0. */
  lemma AlphabetLayout()
    ensures |CHARACTERS| == 36
    ensures forall i | 0 <= i < 26 :: CHARACTERS[i] == 'a' as int + i
    ensures forall i | 26 <= i < 35 :: CHARACTERS[i] == '1' as int + (i - 26)
    ensures CHARACTERS[35] == '0' as int
  {
  }

  /** The redraw discipline every renderer follows: the screen is cleared and the
      header written exactly when `cont` is false, both before the cursor moves to
      column 0 of row 1, and no second-line text is written before that move. */
  predicate Disciplined(ops: seq<DisplayOp>, cont: bool) {
    (Clear in ops <==> !cont) && (Header in ops <==> !cont) &&
    exists k | 0 <= k < |ops| ::
      ops[k] == Position(0, 1) && Text !in ops[..k] && Clear !in ops[k..] && Header !in ops[k..]
  }

  /** The display commands of one render: the optional clear and header, the move
      to row 1, and the second line when the renderer writes one. */
  function Frame(cont: bool, writesLine: bool): seq<DisplayOp> {
    (if cont then [] else [Clear, Header]) + [Position(0, 1)] + (if writesLine then [Text] else [])
  }

  /** Every frame follows the redraw discipline. */
  lemma {:induction false} FrameDisciplined(cont: bool, writesLine: bool)
    ensures Disciplined(Frame(cont, writesLine), cont)
  {
    var head := if cont then [] else [Clear, Header];
    var ops := Frame(cont, writesLine);
    assert ops[|head|] == Position(0, 1) && ops[..|head|] == head;
  }

  /** `main_menu`: writes a line for options 0 to 2 and always returns false. */
  function MainMenu(counter: u8, cont: bool): (r: Render)
    ensures r.Drawn? && !r.result
  {
    Drawn(false, Frame(cont, counter <= 2))
  }

  /** `heat_menu`: indexes the slot array with the counter unchecked, so a
      counter of 16 or more panics; otherwise it returns whether that slot holds a
      profile. */
  function HeatMenu(counter: u8, profiles: Profiles, cont: bool): (r: Render)
    ensures r.Crashed? <==> counter >= |profiles.slots|
    ensures r.Crashed? ==> r.fault == SlotIndexOutOfBounds
    ensures r.Drawn? ==> (r.result <==> profiles.slots[counter].Some?)
  {
    if counter >= SLOT_COUNT then Crashed(SlotIndexOutOfBounds)
    else
      match profiles.slots[counter]
      case Some(_) => Drawn(true, Frame(cont, true))
      case None => Drawn(false, Frame(cont, true))
  }

  /** `select_edit_profile_menu`: returns false exactly when the counter is past
      the last slot, and reads the slot array only when it is not. */
  function SelectEditProfileMenu(counter: u8, profiles: Profiles, cont: bool): (r: Render)
    ensures r.Drawn? && (r.result <==> counter < |profiles.slots|)
  {
    if counter >= SLOT_COUNT then Drawn(false, Frame(cont, true))
    else
      match profiles.slots[counter]
      case Some(_) => Drawn(true, Frame(cont, true))
      case None => Drawn(true, Frame(cont, true))
  }

  /** A menu of `choices` numbered options (`edit_profile_menu` and
      `edit_profile_point_edit_select_menu` have four; `start_heat_confirm_menu`,
      `cancel_heat_menu`, `edit_exit_menu` and `edit_save_exit_menu` are the
      two-option no/yes menus). It writes a line only for a listed option. As
      written these renderers do not type-check: the listed arms are blocks of
      type `()` and the catch-all arm is the `bool` `false`. This function takes
      the reading in which the catch-all arm only draws nothing, so the final
      `true` is the result for every counter; `ChoiceMenuEarlyReturn` is the
      other reading. */
  function ChoiceMenu(counter: u8, choices: nat, cont: bool): (r: Render)
    ensures r.Drawn? && r.result
    ensures Text in r.ops <==> counter < choices
  {
    Drawn(true, Frame(cont, counter < choices))
  }

  /** The same menus read with the catch-all arm as `_ => return false`: the
      result is true exactly for a listed option. */
  function ChoiceMenuEarlyReturn(counter: u8, choices: nat, cont: bool): (r: Render)
    ensures r.Drawn? && (r.result <==> counter < choices)
    ensures Text in r.ops <==> counter < choices
  {
    Drawn(counter < choices, Frame(cont, counter < choices))
  }

  /** A no/yes screen whose `true` resets the counter before its button is
      read never lets the button see option 1 ("yes"), under either reading of
      the renderer: with the final `true` the button always sees 0, with the
      early return it sees 0 or a counter of 2 or more. */
  lemma {:induction false} YesNeverReachesButton(counter: u8, cont: bool)
    ensures var r := ChoiceMenu(counter, 2, cont); (if r.result then 0 else counter) == 0
    ensures var r := ChoiceMenuEarlyReturn(counter, 2, cont);
      (if r.result then 0 else counter) == (if counter < 2 then 0 else counter)
  {
  }

  /** `edit_profile_name_menu`: returns false exactly when the counter is not a
      valid index into `CHARACTERS`, and then writes no preview line. */
  function EditProfileNameMenu(counter: u8, cont: bool): (r: Render)
    ensures r.Drawn? && (r.result <==> counter < |CHARACTERS|)
  {
    if counter > 35 then Drawn(false, Frame(cont, false))
    else Drawn(true, Frame(cont, true))
  }

  /** `edit_profile_points_select_menu`: returns false past 6; at 6 it writes the
      "return" line and then unwraps `points.get(6)`, which is `None`, so only the
      counters of the six waypoints render without a panic. */
  function PointsSelectMenu(counter: u8, cont: bool): (r: Render)
    ensures r.Crashed? <==> counter == POINT_COUNT
    ensures r.Crashed? ==> r.fault == PointsGetUnwrap
    ensures r.Drawn? ==> (r.result <==> counter < POINT_COUNT)
  {
    if counter > 6 then Drawn(false, Frame(cont, false))
    else if counter == 6 then Crashed(PointsGetUnwrap)
    else Drawn(true, Frame(cont, true))
  }

  /** `edit_profile_point_edit_temp_menu`, `..._time_menu` and
      `..._disabled_menu`: each returns false exactly at the counter's maximum
      value 255 (writing no line then) and true otherwise. */
  function PointFieldMenu(counter: u8, cont: bool): (r: Render)
    ensures r.Drawn? && (r.result <==> counter != U8_MAX)
  {
    if counter == U8_MAX then Drawn(false, Frame(cont, false))
    else Drawn(true, Frame(cont, true))
  }

  /** `heating_menu`: writes the live line and returns false. */
  function HeatingMenu(cont: bool): (r: Render)
    ensures r.Drawn? && !r.result
  {
    Drawn(false, Frame(cont, true))
  }

  /** Every renderer that draws follows the redraw discipline for its `cont`
      argument. */
  lemma {:induction false} RenderersDisciplined(counter: u8, profiles: Profiles, choices: nat, cont: bool)
    ensures Disciplined(MainMenu(counter, cont).ops, cont)
    ensures HeatMenu(counter, profiles, cont).Drawn? ==> Disciplined(HeatMenu(counter, profiles, cont).ops, cont)
    ensures Disciplined(SelectEditProfileMenu(counter, profiles, cont).ops, cont)
    ensures Disciplined(ChoiceMenu(counter, choices, cont).ops, cont)
    ensures Disciplined(ChoiceMenuEarlyReturn(counter, choices, cont).ops, cont)
    ensures Disciplined(EditProfileNameMenu(counter, cont).ops, cont)
    ensures PointsSelectMenu(counter, cont).Drawn? ==> Disciplined(PointsSelectMenu(counter, cont).ops, cont)
    ensures Disciplined(PointFieldMenu(counter, cont).ops, cont)
    ensures Disciplined(HeatingMenu(cont).ops, cont)
  {
    FrameDisciplined(cont, true);
    FrameDisciplined(cont, false);
  }
}
