/**
 * The wire-level constants of the call surface: the status codes, the API
 * version, the codes of the mock library, and the transform record with its
 * binary layout (three position doubles, a four-double quaternion, three
 * scale doubles, packed without padding into 80 bytes).
 */
module LiveLinkTypes {

  // Status codes of the real library: success is zero, errors are negative.
  const Ok: int := 0
  const Error: int := -1
  const NotConnected: int := -2
  const NotInitialized: int := -3

  /** The version reported to the managed layer. */
  const ApiVersion: int := 1

  // The mock library answers with positive codes instead.
  const MockError: int := 1
  const MockNotInitialized: int := 2

  predicate IsErrorCode(code: int)
  {
    code == Error || code == NotConnected || code == NotInitialized
  }

  /** Success is zero, every error code is negative, and no two codes coincide. */
  lemma StatusCodesDistinct()
    ensures Ok == 0 && !IsErrorCode(Ok)
    ensures forall code :: IsErrorCode(code) ==> code < 0
    ensures Error != NotConnected && Error != NotInitialized && NotConnected != NotInitialized
    ensures ApiVersion == 1
  {
  }

  /** The mock's codes are positive, so they can never be mistaken for a real error code. */
  lemma MockCodesDistinct()
    ensures MockError > 0 && MockNotInitialized > 0 && MockError != MockNotInitialized
    ensures !IsErrorCode(MockError) && !IsErrorCode(MockNotInitialized)
    ensures MockError != Ok && MockNotInitialized != Ok
  {
  }

  // A double is modelled by its value; the transform's arrays have fixed lengths.
  type Vec3 = s: seq<real> | |s| == 3 witness [0.0, 0.0, 0.0]
  type Quat = s: seq<real> | |s| == 4 witness [0.0, 0.0, 0.0, 1.0]

  /** The transform record: position (X, Y, Z), rotation quaternion (X, Y, Z, W), scale (X, Y, Z). */
  datatype Transform = Transform(position: Vec3, rotation: Quat, scale: Vec3)

  /** Size of one double in bytes. */
  const DoubleSize: nat := 8

  /** A field of a packed record of doubles: its name and how many doubles it holds. */
  datatype Field = Field(name: string, count: nat)

  /** The fields of the transform record, in declaration order. */
  const TransformFields: seq<Field> := [Field("position", 3), Field("rotation", 4), Field("scale", 3)]

  function FieldBytes(f: Field): nat
  {
    f.count * DoubleSize
  }

  /** Size of a packed record: the fields laid end to end with no padding. */
  function SizeOf(fields: seq<Field>): nat
  {
    if fields == [] then 0 else FieldBytes(fields[0]) + SizeOf(fields[1..])
  }

  /** Offset of field `i`: the bytes taken by the fields before it. */
  function OffsetOf(fields: seq<Field>, i: nat): nat
    requires i <= |fields|
  {
    SizeOf(fields[..i])
  }

  lemma {:induction false} SizeOfAppend(fields: seq<Field>, f: Field)
    ensures SizeOf(fields + [f]) == SizeOf(fields) + FieldBytes(f)
  {
    if fields == [] {
      assert fields + [f] == [f];
      assert [f][1..] == [];
    } else {
      assert (fields + [f])[0] == fields[0];
      assert (fields + [f])[1..] == fields[1..] + [f];
      SizeOfAppend(fields[1..], f);
    }
  }

  /** Each field starts exactly where the previous one ends. */
  lemma OffsetStep(fields: seq<Field>, i: nat)
    requires i < |fields|
    ensures OffsetOf(fields, i + 1) == OffsetOf(fields, i) + FieldBytes(fields[i])
  {
    assert fields[..i + 1] == fields[..i] + [fields[i]];
    SizeOfAppend(fields[..i], fields[i]);
  }

  /** The last field ends where the record ends: there is no trailing padding. */
  lemma LastFieldEndsRecord(fields: seq<Field>)
    requires fields != []
    ensures OffsetOf(fields, |fields| - 1) + FieldBytes(fields[|fields| - 1]) == SizeOf(fields)
  {
    OffsetStep(fields, |fields| - 1);
    assert fields[..|fields|] == fields;
  }

  /** The transform record takes 24 + 32 + 24 = 80 bytes, at offsets 0, 24 and 56,
      and its field lengths are those of the datatype's arrays. */
  lemma TransformLayout(t: Transform)
    ensures FieldBytes(TransformFields[0]) == 24
    ensures FieldBytes(TransformFields[1]) == 32
    ensures FieldBytes(TransformFields[2]) == 24
    ensures SizeOf(TransformFields) == 80
    ensures OffsetOf(TransformFields, 0) == 0
    ensures OffsetOf(TransformFields, 1) == 24
    ensures OffsetOf(TransformFields, 2) == 56
    ensures |t.position| == TransformFields[0].count
    ensures |t.rotation| == TransformFields[1].count
    ensures |t.scale| == TransformFields[2].count
  {
    OffsetStep(TransformFields, 0);
    OffsetStep(TransformFields, 1);
    LastFieldEndsRecord(TransformFields);
  }
}
