/** `android.renderscript.Script`: the handle of one compiled kernel set.
    It caches the kernel and field identifiers it has created, one per slot,
    and turns invoke, forEach, bind and setVar/getVar requests into calls on
    its RenderScript context. */
module Scripts {
  import opened Wrappers
  import opened Runtime
  import opened Marshal
  import opened Launch

  const KernelIDFailed: string := "Failed to create KernelID"
  const FieldIDFailed: string := "Failed to create FieldID"
  const NeedInOrOut: string := "At least one of ain or aout is required to be non-null."
  const BindNeedsSimple1D: string := "API 20+ only allows simple 1D allocations to be used with bind."

  /** The first target SDK version that may bind only simple 1D allocations. */
  const SimpleBindSdk: i32 := 20

  /** A (script, kernel slot) pair with the signature it was created for. */
  class KernelID {
    const id: Handle
    const rs: RenderScript
    const script: Script
    const slot: i32
    const sig: i32
    constructor (id: Handle, rs: RenderScript, script: Script, slot: i32, sig: i32)
      ensures this.id == id && this.rs == rs && this.script == script
      ensures this.slot == slot && this.sig == sig
    {
      this.id := id;
      this.rs := rs;
      this.script := script;
      this.slot := slot;
      this.sig := sig;
    }
  }

  /** A (script, exported field slot) pair. */
  class FieldID {
    const id: Handle
    const rs: RenderScript
    const script: Script
    const slot: i32
    constructor (id: Handle, rs: RenderScript, script: Script, slot: i32)
      ensures this.id == id && this.rs == rs && this.script == script && this.slot == slot
    {
      this.id := id;
      this.rs := rs;
      this.script := script;
      this.slot := slot;
    }
  }

  /** An allocation shape `bindAllocation` accepts for every target: one
      dimension, no mipmaps, a single face. Such a shape is fixed by its X
      extent alone. */
  function IsSimple1D(t: Type): (simple: bool)
    ensures simple <==> t == Type(t.x, 0, 0, false, false)
  {
    !t.mipmaps && !t.faces && t.y == 0 && t.z == 0
  }

  class Script {
    const id: Handle
    const rs: RenderScript
    /** `mKIDs`: slot to the kernel identifier created for it. */
    var kernelIds: map<i32, KernelID>
    /** `mFIDs`: slot to the field identifier created for it. */
    var fieldIds: map<i32, FieldID>
    /** `mInIdsBuffer`: the reused one-element `in_ids` of the single-input `forEach`. */
    const inIdsBuffer: array<i64>

    /** Every cached identifier is this script's, in this context, for the
        slot it is filed under. */
    ghost predicate Valid()
      reads this
    {
      && inIdsBuffer.Length == 1
      && (forall s :: s in kernelIds ==>
            kernelIds[s].slot == s && kernelIds[s].script == this && kernelIds[s].rs == rs)
      && (forall s :: s in fieldIds ==>
            fieldIds[s].slot == s && fieldIds[s].script == this && fieldIds[s].rs == rs)
    }

    constructor (id: Handle, rs: RenderScript)
      ensures Valid()
      ensures this.id == id && this.rs == rs
      ensures kernelIds == map[] && fieldIds == map[] && fresh(inIdsBuffer)
    {
      this.id := id;
      this.rs := rs;
      kernelIds := map[];
      fieldIds := map[];
      inIdsBuffer := new i64[1];
    }

    /** Get-or-create of the kernel identifier for `slot`. A cached one is
        returned as it is, whatever `sig`, `ein` and `eout` are, with no engine
        call; otherwise exactly one creation call is made, and only a non-zero
        handle is wrapped, cached and returned. */
    method CreateKernelID(slot: i32, sig: i32, ein: Element?, eout: Element?)
      returns (r: Result<KernelID, Error>)
      requires Valid()
      modifies this`kernelIds, rs`log
      ensures Valid()
      ensures slot in old(kernelIds) ==>
        && r == Ok(old(kernelIds)[slot])
        && kernelIds == old(kernelIds) && rs.log == old(rs.log)
      ensures slot !in old(kernelIds) ==>
        rs.log == old(rs.log) + [KernelIDCreate(id, slot, sig)]
      ensures slot !in old(kernelIds) && rs.supply(old(rs.log), KernelIDCreate(id, slot, sig)) == 0 ==>
        r == Err(DriverError(KernelIDFailed)) && kernelIds == old(kernelIds)
      ensures slot !in old(kernelIds) && rs.supply(old(rs.log), KernelIDCreate(id, slot, sig)) != 0 ==>
        && r.Ok? && fresh(r.value)
        && r.value.id == rs.supply(old(rs.log), KernelIDCreate(id, slot, sig))
        && r.value.script == this && r.value.slot == slot && r.value.sig == sig
        && kernelIds == old(kernelIds)[slot := r.value]
    {
      if slot in kernelIds {
        return Ok(kernelIds[slot]);
      }
      var h := rs.ScriptKernelIDCreate(id, slot, sig);
      if h == 0 {
        return Err(DriverError(KernelIDFailed));
      }
      var k := new KernelID(h, rs, this, slot, sig);
      kernelIds := kernelIds[slot := k];
      r := Ok(k);
    }

    /** Get-or-create of the field identifier for `slot`, with the same
        caching rule as `CreateKernelID`; `e` is never looked at. */
    method CreateFieldID(slot: i32, e: Element?) returns (r: Result<FieldID, Error>)
      requires Valid()
      modifies this`fieldIds, rs`log
      ensures Valid()
      ensures slot in old(fieldIds) ==>
        && r == Ok(old(fieldIds)[slot])
        && fieldIds == old(fieldIds) && rs.log == old(rs.log)
      ensures slot !in old(fieldIds) ==>
        rs.log == old(rs.log) + [FieldIDCreate(id, slot)]
      ensures slot !in old(fieldIds) && rs.supply(old(rs.log), FieldIDCreate(id, slot)) == 0 ==>
        r == Err(DriverError(FieldIDFailed)) && fieldIds == old(fieldIds)
      ensures slot !in old(fieldIds) && rs.supply(old(rs.log), FieldIDCreate(id, slot)) != 0 ==>
        && r.Ok? && fresh(r.value)
        && r.value.id == rs.supply(old(rs.log), FieldIDCreate(id, slot))
        && r.value.script == this && r.value.slot == slot
        && fieldIds == old(fieldIds)[slot := r.value]
    {
      if slot in fieldIds {
        return Ok(fieldIds[slot]);
      }
      var h := rs.ScriptFieldIDCreate(id, slot);
      if h == 0 {
        return Err(DriverError(FieldIDFailed));
      }
      var f := new FieldID(h, rs, this, slot);
      fieldIds := fieldIds[slot := f];
      r := Ok(f);
    }

    /** `invoke(int)`: a call of the invokable at `slot` without arguments. */
    method Invoke(slot: i32)
      modifies rs`log, rs`intVars
      ensures rs.log == old(rs.log) + [Call.Invoke(id, slot)]
    {
      rs.ScriptInvoke(id, slot);
    }

    /** `invoke(int, FieldPacker)`: with packed arguments, or, for null ones,
        exactly the call `invoke(int)` makes. */
    method InvokeWithArgs(slot: i32, v: FieldPacker?)
      modifies rs`log, rs`intVars
      ensures v != null ==> rs.log == old(rs.log) + [InvokeV(id, slot, v.data)]
      ensures v == null ==> rs.log == old(rs.log) + [Call.Invoke(id, slot)]
    {
      if v != null {
        rs.ScriptInvokeV(id, slot, v.data);
      } else {
        rs.ScriptInvoke(id, slot);
      }
    }

    /** The five-argument single-input `forEach`. Without input and output
        it throws before any engine call; otherwise it dispatches one launch
        whose `in_ids` is the reused buffer holding the input's id (null
        without an input), whose output id is 0 without an output, and whose
        clip vector is that of `sc`. */
    method ForEachWithOptions(slot: i32, ain: Allocation?, aout: Allocation?, v: FieldPacker?,
                              sc: LaunchOptions?)
      returns (r: Outcome<Error>)
      requires Valid()
      modifies rs`log, rs`intVars, inIdsBuffer
      ensures Valid()
      ensures ain == null && aout == null ==>
        && r == Fail(IllegalArgument(NeedInOrOut))
        && rs.log == old(rs.log) && rs.intVars == old(rs.intVars) && unchanged(inIdsBuffer)
      ensures !(ain == null && aout == null) ==>
        && r == Pass
        && rs.log == old(rs.log) + [Call.ForEach(id,
             LaunchRequest(slot, SingleInIds(ain), AllocationId(aout), ParamsOf(v), ClipVector(sc)))]
      ensures ain != null ==> inIdsBuffer[..] == [ain.id]
      ensures ain == null ==> unchanged(inIdsBuffer)
    {
      if ain == null && aout == null {
        return Fail(IllegalArgument(NeedInOrOut));
      }
      var inIds: Option<seq<i64>> := None;
      if ain != null {
        inIdsBuffer[0] := ain.id;
        assert inIdsBuffer[..] == [ain.id];
        inIds := Some(inIdsBuffer[..]);
      }
      var outId := AllocationId(aout);
      var params := ParamsOf(v);
      var limits := BuildLimits(sc);
      rs.ScriptForEach(id, LaunchRequest(slot, inIds, outId, params, limits));
      r := Pass;
    }

    /** The four-argument single-input `forEach`: the launch without options. */
    method ForEach(slot: i32, ain: Allocation?, aout: Allocation?, v: FieldPacker?)
      returns (r: Outcome<Error>)
      requires Valid()
      modifies rs`log, rs`intVars, inIdsBuffer
      ensures Valid()
      ensures ain == null && aout == null ==>
        && r == Fail(IllegalArgument(NeedInOrOut))
        && rs.log == old(rs.log) && rs.intVars == old(rs.intVars) && unchanged(inIdsBuffer)
      ensures !(ain == null && aout == null) ==>
        && r == Pass
        && rs.log == old(rs.log) + [Call.ForEach(id,
             LaunchRequest(slot, SingleInIds(ain), AllocationId(aout), ParamsOf(v), None))]
      ensures ain != null ==> inIdsBuffer[..] == [ain.id]
      ensures ain == null ==> unchanged(inIdsBuffer)
    {
      r := ForEachWithOptions(slot, ain, aout, v, null);
    }

    /** The five-argument array `forEach`. The source's null check on inputs
        and output comes after a loop over `ains`, so it can only reject a null
        `ains` that has already failed; an empty `ains` with a null output is
        dispatched with no input ids. Input ids keep the caller's order. */
    method ForEachMultiWithOptions(slot: i32, ains: array<Allocation>, aout: Allocation?,
                                   v: FieldPacker?, sc: LaunchOptions?)
      modifies rs`log, rs`intVars
      ensures rs.log == old(rs.log) + [Call.ForEach(id,
        LaunchRequest(slot, Some(IdsOf(ains[..])), AllocationId(aout), ParamsOf(v), ClipVector(sc)))]
    {
      var req := BuildArrayLaunch(slot, ains, aout, v, sc);
      rs.ScriptForEach(id, req);
    }

    /** The four-argument array `forEach`: the launch without options. */
    method ForEachMulti(slot: i32, ains: array<Allocation>, aout: Allocation?, v: FieldPacker?)
      modifies rs`log, rs`intVars
      ensures rs.log == old(rs.log) + [Call.ForEach(id,
        LaunchRequest(slot, Some(IdsOf(ains[..])), AllocationId(aout), ParamsOf(v), None))]
    {
      ForEachMultiWithOptions(slot, ains, aout, v, null);
    }

    /** `bindAllocation`: null unbinds (id 0). For a target SDK of 20 or
        later an allocation that is not simple 1D is refused before any bind
        call; otherwise the allocation's id is bound at `slot`. */
    method BindAllocation(va: Allocation?, slot: i32) returns (r: Outcome<Error>)
      modifies rs`log
      ensures va == null ==>
        r == Pass && rs.log == old(rs.log) + [Call.BindAllocation(id, 0, slot)]
      ensures va != null && rs.targetSdk >= SimpleBindSdk && !IsSimple1D(va.mType) ==>
        r == Fail(IllegalArgument(BindNeedsSimple1D)) && rs.log == old(rs.log)
      ensures va != null && (rs.targetSdk < SimpleBindSdk || IsSimple1D(va.mType)) ==>
        r == Pass && rs.log == old(rs.log) + [Call.BindAllocation(id, va.id, slot)]
    {
      if va != null {
        if rs.targetSdk >= SimpleBindSdk {
          var t := va.mType;
          if t.mipmaps || t.faces || t.y != 0 || t.z != 0 {
            return Fail(IllegalArgument(BindNeedsSimple1D));
          }
        }
        rs.ScriptBindAllocation(id, va.id, slot);
      } else {
        rs.ScriptBindAllocation(id, 0, slot);
      }
      r := Pass;
    }

    /** `setVar(int, int)`. */
    method SetVarInt(index: i32, v: i32)
      modifies rs`log, rs`intVars
      ensures rs.log == old(rs.log) + [SetVarI(id, index, v)]
      ensures rs.intVars == old(rs.intVars)[(id, index) := v]
    {
      rs.ScriptSetVarI(id, index, v);
    }

    /** `getVarI`: the value the engine holds for the variable. */
    method GetVarInt(index: i32) returns (v: i32)
      modifies rs`log
      ensures rs.log == old(rs.log) + [GetVarI(id, index)]
      ensures v == old(rs.IntVar(id, index))
    {
      v := rs.ScriptGetVarI(id, index);
    }

    /** `setVar(int, boolean)`: stores 1 for true and 0 for false. */
    method SetVarBool(index: i32, b: bool)
      modifies rs`log, rs`intVars
      ensures rs.log == old(rs.log) + [SetVarI(id, index, if b then 1 else 0)]
      ensures rs.intVars == old(rs.intVars)[(id, index) := EncodeBool(b)]
    {
      rs.ScriptSetVarI(id, index, EncodeBool(b));
    }

    /** `getVarB`: true exactly when the stored integer is positive. */
    method GetVarBool(index: i32) returns (b: bool)
      modifies rs`log
      ensures rs.log == old(rs.log) + [GetVarI(id, index)]
      ensures b <==> old(rs.IntVar(id, index)) > 0
    {
      var v := rs.ScriptGetVarI(id, index);
      b := DecodeBool(v);
    }

    /** `setVar(int, BaseObj)`: the object's id, or 0 for null. */
    method SetVarObject(index: i32, o: BaseObj?)
      modifies rs`log
      ensures o == null ==> rs.log == old(rs.log) + [SetVarObj(id, index, 0)]
      ensures o != null ==> rs.log == old(rs.log) + [SetVarObj(id, index, o.id)]
    {
      rs.ScriptSetVarObj(id, index, ObjectId(o));
    }
  }
}
