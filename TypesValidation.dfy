/** The identity transform and the check that recognises it. */
module TypesValidation {
  import opened LiveLinkTypes

  /** Position at the origin, the identity quaternion (0, 0, 0, 1), unit scale. */
  function CreateIdentityTransform(): (t: Transform)
    ensures t.rotation[0] * t.rotation[0] + t.rotation[1] * t.rotation[1]
          + t.rotation[2] * t.rotation[2] + t.rotation[3] * t.rotation[3] == 1.0  // a unit quaternion
    ensures VerifyIdentityTransform(t)
  {
    Transform([0.0, 0.0, 0.0], [0.0, 0.0, 0.0, 1.0], [1.0, 1.0, 1.0])
  }

  /** The three checks of the validator, each of which clears the result flag when it fails. */
  function VerifyIdentityTransform(t: Transform): (valid: bool)
    ensures valid <==> t.position == [0.0, 0.0, 0.0] && t.rotation == [0.0, 0.0, 0.0, 1.0] && t.scale == [1.0, 1.0, 1.0]
  {
    var positionOk := t.position[0] == 0.0 && t.position[1] == 0.0 && t.position[2] == 0.0;
    var rotationOk := t.rotation[0] == 0.0 && t.rotation[1] == 0.0 && t.rotation[2] == 0.0 && t.rotation[3] == 1.0;
    var scaleOk := t.scale[0] == 1.0 && t.scale[1] == 1.0 && t.scale[2] == 1.0;
    positionOk && rotationOk && scaleOk
  }

  /** The validator accepts the transform the constructor builds. */
  lemma IdentityVerifies()
    ensures VerifyIdentityTransform(CreateIdentityTransform())
  {
  }

  /** The validator accepts exactly the identity transform and nothing else. */
  lemma VerifyIdentityExact(t: Transform)
    ensures VerifyIdentityTransform(t) <==> t == CreateIdentityTransform()
  {
    if VerifyIdentityTransform(t) {
      assert t.position == [0.0, 0.0, 0.0];
      assert t.rotation == [0.0, 0.0, 0.0, 1.0];
      assert t.scale == [1.0, 1.0, 1.0];
    }
  }
}
