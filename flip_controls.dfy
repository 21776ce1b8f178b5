/**
  The four buttons of Flip.jsx. Each passes setSettings an updater that
  spreads the previous settings record and replaces one field: the two flips
  toggle a scale sign between 1 and -1, the two rotations step by 90 degrees.
*/
module FlipControls {
  import opened LegacyEditor

  /** `prev.flip === 1 ? -1 : 1`: a value other than 1 (including -1) becomes 1. */
  function Toggle(flip: real): (r: real)
    ensures r == -1.0 <==> flip == 1.0
    ensures r == 1.0 <==> flip != 1.0
  {
    if flip == 1.0 then -1.0 else 1.0
  }

  /** Flip X. */
  function FlipX(s: LegacySettings): (r: LegacySettings)
    ensures r == s.(flipHorizontal := r.flipHorizontal)
    ensures r.flipHorizontal == -1.0 <==> s.flipHorizontal == 1.0
    ensures r.flipHorizontal == 1.0 <==> s.flipHorizontal != 1.0
  {
    s.(flipHorizontal := Toggle(s.flipHorizontal))
  }

  /** Flip Y. */
  function FlipY(s: LegacySettings): (r: LegacySettings)
    ensures r == s.(flipVertical := r.flipVertical)
    ensures r.flipVertical == -1.0 <==> s.flipVertical == 1.0
    ensures r.flipVertical == 1.0 <==> s.flipVertical != 1.0
  {
    s.(flipVertical := Toggle(s.flipVertical))
  }

  /** Rotate Left: 90 degrees counter-clockwise. */
  function RotateLeft(s: LegacySettings): (r: LegacySettings)
    ensures r == s.(rotate := r.rotate)
    ensures r.rotate + 90.0 == s.rotate
  {
    s.(rotate := s.rotate - 90.0)
  }

  /** Rotate Right: 90 degrees clockwise. */
  function RotateRight(s: LegacySettings): (r: LegacySettings)
    ensures r == s.(rotate := r.rotate)
    ensures r.rotate - 90.0 == s.rotate
  {
    s.(rotate := s.rotate + 90.0)
  }

  /** A scale sign the flips keep: 1 or -1. */
  predicate IsSign(v: real)
  {
    v == 1.0 || v == -1.0
  }

  /** Whatever the starting values, after a flip the flipped field is a sign. */
  lemma FlipsGiveSigns(s: LegacySettings)
    ensures IsSign(FlipX(s).flipHorizontal) && IsSign(FlipY(s).flipVertical)
  {
  }

  /** On signs, flipping twice gives back the record, and a flip changes the field. */
  lemma FlipXInvolution(s: LegacySettings)
    requires IsSign(s.flipHorizontal)
    ensures FlipX(FlipX(s)) == s
    ensures FlipX(s) != s
  {
  }

  lemma FlipYInvolution(s: LegacySettings)
    requires IsSign(s.flipVertical)
    ensures FlipY(FlipY(s)) == s
    ensures FlipY(s) != s
  {
  }

  /** Off the signs, the first flip normalises: a value of 2 comes back from two flips as -1. */
  lemma FlipXNormalisesOtherValues()
    ensures FlipX(FlipX(InitialLegacySettings.(flipHorizontal := 2.0))).flipHorizontal == -1.0
  {
  }

  /** Rotating left and right, in either order, gives back the record. */
  lemma RotationsCancel(s: LegacySettings)
    ensures RotateRight(RotateLeft(s)) == s
    ensures RotateLeft(RotateRight(s)) == s
  {
  }

  /** The flips act on different fields, so they commute, and they commute with the rotations. */
  lemma UpdatersCommute(s: LegacySettings)
    ensures FlipX(FlipY(s)) == FlipY(FlipX(s))
    ensures FlipX(RotateLeft(s)) == RotateLeft(FlipX(s))
    ensures FlipX(RotateRight(s)) == RotateRight(FlipX(s))
    ensures FlipY(RotateLeft(s)) == RotateLeft(FlipY(s))
    ensures FlipY(RotateRight(s)) == RotateRight(FlipY(s))
  {
  }

  /** Four right turns make a full turn of 360 degrees. */
  lemma FourRightTurns(s: LegacySettings)
    ensures RotateRight(RotateRight(RotateRight(RotateRight(s)))) == s.(rotate := s.rotate + 360.0)
  {
  }
}
