/**
 * Angular layout of the radial command menu.
 *
 * The `n` buttons of one ring are spread evenly around a full circle: slot
 * `index` is rotated by `-90 + index * (360 / n)` degrees, so slot 0 points
 * straight up and later slots advance clockwise by equal shares of the
 * circle. Each icon is counter-rotated so that its artwork stays upright.
 * The anchor of the second ring uses the same formula, converted to radians.
 *
 * The source computes with IEEE doubles; here `real` gives the exact,
 * idealised value of that computation.
 */
module Layout {

  /** The angular share of the circle that one of `n` buttons occupies, in degrees. */
  function Step(nbCommands: nat): (r: real)
    requires nbCommands > 0
    ensures r > 0.0
    ensures nbCommands as real * r == 360.0
  {
    360.0 / nbCommands as real
  }

  /**
   * Rotation, in degrees, of the button in slot `index` of a ring of
   * `nbCommands` buttons; the first button points straight up.
   */
  function ButtonRotation(index: nat, nbCommands: nat): (r: real)
    requires nbCommands > 0
    ensures index == 0 ==> r == -90.0
  {
    -90.0 + index as real * (360.0 / nbCommands as real)
  }

  /** Rotation, in degrees, of the icon inside the button in slot `index`: it undoes the button's rotation. */
  function IconRotation(index: nat, nbCommands: nat): (r: real)
    requires nbCommands > 0
    ensures r == -ButtonRotation(index, nbCommands)
  {
    90.0 - index as real * (360.0 / nbCommands as real)
  }

  /**
   * Anchor angle of the second ring, in radians, for the first-level button in
   * slot `index` of `nbCommands`. Since pi is not a real literal, the value is
   * given as a multiple of pi: the angle in radians is `r * pi`.
   */
  function AnchorAngleInPi(index: nat, nbCommands: nat): (r: real)
    requires nbCommands > 0
    ensures r * 180.0 == ButtonRotation(index, nbCommands)
  {
    (-90.0 + index as real * (360.0 / nbCommands as real)) * (1.0 / 180.0)
  }

  /**
   * Multiplying by a positive real keeps a strict order. The solver finds the
   * lemmas below without it; the calls only keep their nonlinear steps explicit,
   * which makes those proofs less sensitive to the solver's search.
   */
  lemma MulStrictlyMonotonic(a: real, b: real, s: real)
    requires a < b && s > 0.0
    ensures a * s < b * s
  {
    assert b * s - a * s == (b - a) * s;
  }

  /** Neighbouring slots are exactly one share of the circle apart. */
  lemma AdjacentSlotsOneStepApart(index: nat, nbCommands: nat)
    requires nbCommands > 0
    ensures ButtonRotation(index + 1, nbCommands) - ButtonRotation(index, nbCommands) == Step(nbCommands)
  {
    var s := 360.0 / nbCommands as real;
    assert (index + 1) as real * s == index as real * s + s;
  }

  /** A later slot is always rotated further clockwise. */
  lemma {:induction false} SlotsIncreasing(i: nat, j: nat, nbCommands: nat)
    requires nbCommands > 0 && i < j
    ensures ButtonRotation(i, nbCommands) < ButtonRotation(j, nbCommands)
  {
    MulStrictlyMonotonic(i as real, j as real, Step(nbCommands));
  }

  /** Every slot of a ring lies in the half-open interval [-90, 270): one turn starting at "up". */
  lemma {:induction false} RotationWithinOneTurn(index: nat, nbCommands: nat)
    requires index < nbCommands
    ensures -90.0 <= ButtonRotation(index, nbCommands) < 270.0
  {
    var s := Step(nbCommands);
    assert 0.0 <= index as real * s by {
      if index > 0 { MulStrictlyMonotonic(0.0, index as real, s); }
    }
    MulStrictlyMonotonic(index as real, nbCommands as real, s);
  }

  /** Slot `n` of `n` would coincide with slot 0 one full turn later: the `n` slots divide the circle evenly. */
  lemma FullTurn(nbCommands: nat)
    requires nbCommands > 0
    ensures ButtonRotation(nbCommands, nbCommands) == ButtonRotation(0, nbCommands) + 360.0
  {
    assert nbCommands as real * Step(nbCommands) == 360.0;
  }

  /** Two different slots of one ring never share a position on the circle (their angles differ by less than a full turn). */
  lemma {:induction false} SlotsNeverOverlap(i: nat, j: nat, nbCommands: nat)
    requires i < nbCommands && j < nbCommands && i != j
    ensures ButtonRotation(i, nbCommands) != ButtonRotation(j, nbCommands)
    ensures -360.0 < ButtonRotation(i, nbCommands) - ButtonRotation(j, nbCommands) < 360.0
  {
    RotationWithinOneTurn(i, nbCommands);
    RotationWithinOneTurn(j, nbCommands);
    if i < j { SlotsIncreasing(i, j, nbCommands); } else { SlotsIncreasing(j, i, nbCommands); }
  }

  /** With four buttons the slots point up, right, down and left. */
  lemma FourButtons()
    ensures ButtonRotation(0, 4) == -90.0
    ensures ButtonRotation(1, 4) == 0.0
    ensures ButtonRotation(2, 4) == 90.0
    ensures ButtonRotation(3, 4) == 180.0
  {
  }
}
