/** How a script encodes typed values for the engine: booleans travel as
    32-bit integers, and an object reference travels as its handle, with
    0 for null. */
module Marshal {
  import opened Wrappers
  import opened Runtime

  /** `v ? 1 : 0`: the integer `setVar(int, boolean)` stores. */
  function EncodeBool(b: bool): (v: i32)
    ensures v == 0 || v == 1
    ensures (v > 0) == b
  {
    if b then 1 else 0
  }

  /** `getVarB`'s reading of a stored integer: every positive value reads
      as true, zero and every negative value as false. */
  function DecodeBool(v: i32): (b: bool)
    ensures v > 0 ==> b
    ensures v <= 0 ==> !b
    ensures (v == 0 || v == 1) ==> EncodeBool(b) == v
  {
    v > 0
  }

  /** Decoding undoes encoding, for both booleans. */
  lemma BoolRoundTrip(b: bool)
    ensures DecodeBool(EncodeBool(b)) == b
  {
  }

  /** Re-encoding what was decoded gives back the stored integer exactly when
      that integer is canonical (0 or 1). */
  lemma CanonicalBoolsAreFixedPoints(v: i32)
    ensures EncodeBool(DecodeBool(v)) == v <==> v == 0 || v == 1
  {
  }

  /** `(o == null) ? 0 : o.getID(mRS)`: the id sent for an object variable.
      0 is sent exactly for null, since no live object has handle 0. */
  function ObjectId(o: BaseObj?): (id: i64)
    ensures id == 0 <==> o == null
    ensures o != null ==> id == o.id
  {
    if o == null then 0 else o.id
  }

  /** The id sent for an allocation argument that may be null: its handle,
      or 0 for null (the output of a launch). */
  function AllocationId(a: Allocation?): (id: i64)
    ensures id == 0 <==> a == null
    ensures a != null ==> id == a.id
  {
    if a == null then 0 else a.id
  }

  /** The packed-argument bytes passed for a `FieldPacker` that may be null. */
  function ParamsOf(v: FieldPacker?): (p: Option<seq<bv8>>)
    ensures p.Some? <==> v != null
    ensures v != null ==> p.value == v.data
  {
    if v == null then None else Some(v.data)
  }
}
