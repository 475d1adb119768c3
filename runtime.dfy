/** The collaborators of a script: the RenderScript context (the execution
    engine, seen only through the calls a script makes into it), and the
    objects a script passes to it by handle (allocations, elements, packed
    arguments). The engine is modelled as a log of the calls it has received,
    a supplier of the handles it returns from creation calls, and the store
    of 32-bit script variables that `nScriptSetVarI`/`nScriptGetVarI` write
    and read. */
module Runtime {
  import opened Wrappers

  /** Java `int`. */
  type i32 = x: int | -0x8000_0000 <= x < 0x8000_0000
  /** Java `long`, the width of engine handles. */
  type i64 = x: int | -0x8000_0000_0000_0000 <= x < 0x8000_0000_0000_0000
  /** The handle of a live engine object: `BaseObj.getID` never yields 0. */
  type Handle = x: i64 | x != 0 witness 1

  /** The exceptions the script layer throws: `RSIllegalArgumentException`
      for arguments it rejects, `RSDriverException` when the engine refuses
      to create an object. */
  datatype Error = IllegalArgument(message: string) | DriverError(message: string)

  /** The shape of an allocation, as `Type` reports it. */
  datatype Type = Type(x: i32, y: i32, z: i32, mipmaps: bool, faces: bool)

  /** A typed buffer known to the engine by its handle. */
  class Allocation {
    const id: Handle
    const mType: Type
    constructor (id: Handle, mType: Type)
      ensures this.id == id && this.mType == mType
    {
      this.id := id;
      this.mType := mType;
    }
  }

  /** An element type descriptor known to the engine by its handle. */
  class Element {
    const id: Handle
    constructor (id: Handle)
      ensures this.id == id
    {
      this.id := id;
    }
  }

  /** Any engine object that can be stored in an object-typed script variable. */
  class BaseObj {
    const id: Handle
    constructor (id: Handle)
      ensures this.id == id
    {
      this.id := id;
    }
  }

  /** Packed arguments; `data` is what `getData()` hands to the engine. */
  class FieldPacker {
    const data: seq<bv8>
    constructor (data: seq<bv8>)
      ensures this.data == data
    {
      this.data := data;
    }
  }

  /** The payload of one `nScriptForEach`: kernel slot, input ids (none for a
      null `in_ids` array), output id (0 for none), packed arguments and the
      six clip bounds, each `None` where the Java code passes null. */
  datatype LaunchRequest = LaunchRequest(
    slot: i32,
    inIds: Option<seq<i64>>,
    outId: i64,
    params: Option<seq<bv8>>,
    limits: Option<seq<i32>>)

  /** One call a script makes into the engine. */
  datatype Call =
    | KernelIDCreate(script: Handle, slot: i32, sig: i32)
    | FieldIDCreate(script: Handle, slot: i32)
    | Invoke(script: Handle, slot: i32)
    | InvokeV(script: Handle, slot: i32, params: seq<bv8>)
    | ForEach(script: Handle, request: LaunchRequest)
    | BindAllocation(script: Handle, alloc: i64, slot: i32)
    | SetVarI(script: Handle, index: i32, value: i32)
    | GetVarI(script: Handle, index: i32)
    | SetVarObj(script: Handle, index: i32, obj: i64)

  /** The RenderScript context a script belongs to. */
  class RenderScript {
    /** `targetSdkVersion` of the application that owns the context. */
    const targetSdk: i32
    /** The handle the engine answers a creation call with, given every call
        it received before; 0 means the engine refused. */
    const supply: (seq<Call>, Call) -> i64
    /** The value of a 32-bit script variable that has not been set. */
    const initialInt: (Handle, i32) -> i32
    /** Every call received so far, oldest first. */
    var log: seq<Call>
    /** 32-bit script variables, keyed by (script, index): set by
        `nScriptSetVarI`, and possibly by any invokable or kernel the engine
        runs, so calls that run script code promise nothing about them. */
    var intVars: map<(Handle, i32), i32>

    constructor (targetSdk: i32, supply: (seq<Call>, Call) -> i64, initialInt: (Handle, i32) -> i32)
      ensures this.targetSdk == targetSdk && this.supply == supply && this.initialInt == initialInt
      ensures log == [] && intVars == map[]
    {
      this.targetSdk := targetSdk;
      this.supply := supply;
      this.initialInt := initialInt;
      log := [];
      intVars := map[];
    }

    /** The current value of variable `index` of `script`. */
    function IntVar(script: Handle, index: i32): i32
      reads this
    {
      if (script, index) in intVars then intVars[(script, index)] else initialInt(script, index)
    }

    method ScriptKernelIDCreate(script: Handle, slot: i32, sig: i32) returns (h: i64)
      modifies this`log
      ensures log == old(log) + [KernelIDCreate(script, slot, sig)]
      ensures h == supply(old(log), KernelIDCreate(script, slot, sig))
    {
      h := supply(log, KernelIDCreate(script, slot, sig));
      log := log + [KernelIDCreate(script, slot, sig)];
    }

    method ScriptFieldIDCreate(script: Handle, slot: i32) returns (h: i64)
      modifies this`log
      ensures log == old(log) + [FieldIDCreate(script, slot)]
      ensures h == supply(old(log), FieldIDCreate(script, slot))
    {
      h := supply(log, FieldIDCreate(script, slot));
      log := log + [FieldIDCreate(script, slot)];
    }

    method ScriptInvoke(script: Handle, slot: i32)
      modifies this`log, this`intVars
      ensures log == old(log) + [Invoke(script, slot)]
    {
      log := log + [Invoke(script, slot)];
    }

    method ScriptInvokeV(script: Handle, slot: i32, params: seq<bv8>)
      modifies this`log, this`intVars
      ensures log == old(log) + [InvokeV(script, slot, params)]
    {
      log := log + [InvokeV(script, slot, params)];
    }

    method ScriptForEach(script: Handle, request: LaunchRequest)
      modifies this`log, this`intVars
      ensures log == old(log) + [ForEach(script, request)]
    {
      log := log + [ForEach(script, request)];
    }

    method ScriptBindAllocation(script: Handle, alloc: i64, slot: i32)
      modifies this`log
      ensures log == old(log) + [BindAllocation(script, alloc, slot)]
    {
      log := log + [BindAllocation(script, alloc, slot)];
    }

    method ScriptSetVarI(script: Handle, index: i32, value: i32)
      modifies this`log, this`intVars
      ensures log == old(log) + [SetVarI(script, index, value)]
      ensures intVars == old(intVars)[(script, index) := value]
    {
      log := log + [SetVarI(script, index, value)];
      intVars := intVars[(script, index) := value];
    }

    method ScriptGetVarI(script: Handle, index: i32) returns (value: i32)
      modifies this`log
      ensures log == old(log) + [GetVarI(script, index)]
      ensures value == IntVar(script, index)
    {
      value := IntVar(script, index);
      log := log + [GetVarI(script, index)];
    }

    method ScriptSetVarObj(script: Handle, index: i32, obj: i64)
      modifies this`log
      ensures log == old(log) + [SetVarObj(script, index, obj)]
    {
      log := log + [SetVarObj(script, index, obj)];
    }
  }
}
