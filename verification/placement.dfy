/** The label placement rule of an actor: how the label's transform and centre
    follow the camera. */
module Placement {

  /** A vector of coordinates (a position, a camera centre, a label centre). */
  type Vec = seq<real>

  /** The camera's 4x4 matrix, never inspected by the scene: it is copied as is. */
  type Matrix = seq<seq<real>>

  /** The height the label is lifted by, along the last axis. */
  const LabelLift: real := 0.25

  /** The label centre an actor starts with, (0, 0, 0.25). */
  const InitialLabelCenter: Vec := [0.0, 0.0, LabelLift]

  /** The rendering engine's matrix transform, kept symbolic: a fresh transform
      is the identity, assigning a matrix replaces the whole transform, and a
      translation is recorded together with the transform it was applied to.
      What a translation does to the numbers is the engine's business and is
      not modelled. */
  datatype Transform = Identity | Assigned(matrix: Matrix) | Translated(base: Transform, offset: Vec)

  /** The engine's in-place translation of a transform, kept symbolic (a
      free term): placements built differently are distinct terms even where
      the engine's numbers agree, and no contract relies on that. */
  function Translate(t: Transform, offset: Vec): Transform
  {
    Translated(t, offset)
  }

  /** Component-wise negation of a vector. */
  function Negated(c: Vec): (r: Vec)
    ensures |r| == |c|
    ensures forall i :: 0 <= i < |c| ==> r[i] + c[i] == 0.0
  {
    seq(|c|, i requires 0 <= i < |c| => -c[i])
  }

  /** The label centre computed against a camera centre `c`: the negation of
      `c`, lifted by 0.25 along its last axis. An empty centre has no last
      component, so it has no label centre. */
  function LabelCenterFor(c: Vec): (r: Vec)
    requires |c| > 0
    ensures |r| == |c|
    ensures forall i :: 0 <= i < |c| - 1 ==> r[i] == -c[i]
    ensures r[|c| - 1] == LabelLift - c[|c| - 1]
  {
    var n := Negated(c);
    n[|c| - 1 := n[|c| - 1] + LabelLift]
  }

  /** The rule is its own inverse: the camera centre can be read back from
      the label centre, so distinct camera centres give distinct labels. */
  lemma LabelCenterInvolution(c: Vec)
    requires |c| > 0
    ensures LabelCenterFor(LabelCenterFor(c)) == c
  {
  }

  /** Two camera centres give the same label centre only when they are equal. */
  lemma LabelCenterInjective(c1: Vec, c2: Vec)
    requires |c1| > 0 && |c2| > 0
    requires LabelCenterFor(c1) == LabelCenterFor(c2)
    ensures c1 == c2
  {
  }

  /** The centre an actor is constructed with is the one a camera centred at
      the origin would give it. */
  lemma OriginCameraGivesInitialCenter()
    ensures LabelCenterFor([0.0, 0.0, 0.0]) == InitialLabelCenter
  {
  }
}
