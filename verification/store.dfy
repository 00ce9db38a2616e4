/** The profile data model: ramp waypoints, named six-point profiles and the
    sixteen-slot store. All three are plain values: copying one and changing the
    copy never changes the original. */
module Store {
  import opened Types

  const NAME_LEN := 6
  const POINT_COUNT := 6
  const SLOT_COUNT := 16

  /** One ramp waypoint: a temperature, a time in seconds and a flag. */
  datatype CurvePoint = CurvePoint(temp: u16, timeSeconds: u16, disabled: bool)

  /** A fixed six-byte name; its length can never change. */
  type Name = s: seq<u8> | |s| == NAME_LEN witness [0, 0, 0, 0, 0, 0]

  /** Exactly six waypoints; nothing can add or remove one. */
  type Points = s: seq<CurvePoint> | |s| == POINT_COUNT
    witness [CurvePoint(0, 0, false), CurvePoint(0, 0, false), CurvePoint(0, 0, false),
             CurvePoint(0, 0, false), CurvePoint(0, 0, false), CurvePoint(0, 0, false)]

  datatype Profile = Profile(name: Name, points: Points)

  /** Exactly sixteen optional profiles; a slot's index is the profile's identity. */
  type Slots = s: seq<Option<Profile>> | |s| == SLOT_COUNT
    witness [None, None, None, None, None, None, None, None,
             None, None, None, None, None, None, None, None]

  /** The store has a count and the slots, and no default value of its own. */
  datatype Profiles = Profiles(numProfiles: u8, slots: Slots)

  /** The derived `Default` of a waypoint: every field zero or false. */
  function DefaultPoint(): CurvePoint {
    CurvePoint(0, 0, false)
  }

  /** The derived `Default` of a profile: six zero bytes and six default waypoints. */
  function DefaultProfile(): Profile {
    Profile([0, 0, 0, 0, 0, 0],
            [DefaultPoint(), DefaultPoint(), DefaultPoint(),
             DefaultPoint(), DefaultPoint(), DefaultPoint()])
  }

  /** The profile the editor starts with at power-on, written out by hand in the
      loop's set-up: six spaces and six disabled zero waypoints. */
  function InitialScratch(): Profile {
    var off := CurvePoint(0, 0, true);
    Profile([' ' as u8, ' ' as u8, ' ' as u8, ' ' as u8, ' ' as u8, ' ' as u8],
            [off, off, off, off, off, off])
  }

  /** `Option::unwrap_or_default` on a slot. */
  function UnwrapOrDefault(slot: Option<Profile>): (p: Profile)
    ensures slot.Some? ==> p == slot.value
    ensures slot.None? ==> p == DefaultProfile()
  {
    match slot
    case Some(q) => q
    case None => DefaultProfile()
  }

  /** The derived default is all zero bytes and all zero, enabled waypoints, and
      is therefore a different profile from the hand-built power-on scratch. */
  lemma DerivedDefault()
    ensures forall i | 0 <= i < NAME_LEN :: DefaultProfile().name[i] == 0
    ensures forall i | 0 <= i < POINT_COUNT ::
      DefaultProfile().points[i] == CurvePoint(0, 0, false)
    ensures DefaultProfile() != InitialScratch()
    ensures forall i | 0 <= i < NAME_LEN :: InitialScratch().name[i] == ' ' as u8
    ensures forall i | 0 <= i < POINT_COUNT :: InitialScratch().points[i].disabled
  {
    assert DefaultProfile().name[0] != InitialScratch().name[0];
  }
}
