# RenderScript `Script`: identifier caches, launch construction, argument encoding

This project models the self-contained logic of `android.renderscript.Script`,
the handle of one compiled kernel set, and proves what that logic promises.

- **Identifier caches.** `createKernelID` and `createFieldID` are get-or-create
  lookups over per-script slot maps (`mKIDs`, `mFIDs`). A hit returns the stored
  object and makes no engine call. A miss makes one creation call. A zero handle
  throws and caches nothing.
- **`LaunchOptions`.** A mutable record of three (start, end) clip pairs. Each
  setter either rejects its arguments and changes nothing, or sets exactly its
  own pair.
- **`forEach`.** Both the single-input and the array form build one launch
  request and hand it to the engine: slot, input ids, output id, packed
  arguments and clip vector.
- **Argument encoding.** A boolean is stored as 1 or 0 and read back as "greater
  than 0". A null object or allocation is sent as id 0. `invoke` with null
  packed arguments is the no-argument call. `bindAllocation` has a shape gate
  that depends on the target SDK version.

The RenderScript context (the execution engine) is modelled by its interface
only (`Runtime.RenderScript`):

- a log of every call it receives;
- a handle supplier `supply`, an arbitrary function of the earlier calls and
  the creation call, where 0 means refusal;
- a store of 32-bit script variables;
- the application's `targetSdkVersion`, as the constant `targetSdk` given at
  construction.

Java `int` and `long` are the subset types `i32` and `i64`. An object handle is
`Handle`, a non-zero `i64`. Java exceptions are `Result`/`Outcome` values
carrying `IllegalArgument` or `DriverError` with the source's messages.

Modules: `Wrappers` (Option, Result, Outcome), `Runtime` (engine and
collaborator objects), `Marshal` (encodings), `Launch` (`LaunchOptions`, the
clip vector, input-id collection), `Scripts` (`Script`, `KernelID`,
`FieldID`), and `Scenarios` (call sites showing what callers can conclude).

Behaviour of the code that a reader might not expect:

- **Direction of the shape gate.** `bindAllocation` restricts buffers to simple
  1D shapes only when `targetSdkVersion >= 20`
  (rs/java/android/renderscript/Script.java:262). Targets below 20 bind any shape.
- **Clip vector for unset options.** A non-null options object always sends six
  bounds, zeros included (`Scenarios.UnsetOptionsStillSendBounds`). Only a null
  options object sends no clip vector.
- **The "start ignored when end is 0" case.** It cannot be reached through the
  setters. Every pair is either the initial (0, 0) or has `0 <= start < end`
  (`LaunchOptions.Valid`, `Launch.ClipVector`).
- **Array form with no inputs.** The null check on inputs and output comes
  after the loop over `ains`, so an empty `ains` with a null output is
  dispatched with no input ids (`Scenarios.EmptyInputsNoOutput`).
- **Script code may change variables.** An invoke or a launch runs script code,
  which may write script variables. The model promises nothing about the
  variable store after those calls.

## Model

| member | source | states |
|---|---|---|
| `Marshal.EncodeBool` | rs/java/android/renderscript/Script.java:328-330 | a boolean is stored as 0 or 1, and the stored value is positive exactly for true |
| `Marshal.DecodeBool` | rs/java/android/renderscript/Script.java:331-333 | a stored integer reads as true exactly when it is > 0 (so 2 and above read as true, 0 and negatives as false); a canonical 0/1 re-encodes to itself |
| `Marshal.BoolRoundTrip` | rs/java/android/renderscript/Script.java:328-333 | reading back a stored boolean gives the boolean |
| `Marshal.CanonicalBoolsAreFixedPoints` | rs/java/android/renderscript/Script.java:331-333 | decode-then-encode returns the stored integer if and only if it is 0 or 1 |
| `Marshal.ObjectId` | rs/java/android/renderscript/Script.java:342 | the id sent for an object variable is 0 exactly when the object is null, else its handle |
| `Marshal.AllocationId` | rs/java/android/renderscript/Script.java:158-161 | the output id is 0 exactly when there is no output, else the output's handle |
| `Launch.LaunchOptions.constructor` | rs/java/android/renderscript/Script.java:436-441 | a fresh options object has all six bounds 0 and satisfies the range invariant |
| `Launch.LaunchOptions.SetX` | rs/java/android/renderscript/Script.java:453-460 | start < 0 or end <= start throws "Invalid dimensions" and changes no field; otherwise the X getters return the new pair, Y and Z are unchanged, `this` is returned, and the invariant holds |
| `Launch.LaunchOptions.SetY` | rs/java/android/renderscript/Script.java:471-478 | the same for the Y pair |
| `Launch.LaunchOptions.SetZ` | rs/java/android/renderscript/Script.java:489-496 | the same for the Z pair |
| `Launch.LaunchOptions.XStart` | rs/java/android/renderscript/Script.java:504-506 | under the range invariant, the reported X start forms a well-formed pair with the X end: non-negative, and 0 when the end is 0 |
| `Launch.LaunchOptions.XEnd` | rs/java/android/renderscript/Script.java:512-514 | under the range invariant, the reported X end is 0 (unclipped) or lies above the X start |
| `Launch.LaunchOptions.YStart` | rs/java/android/renderscript/Script.java:520-522 | the same for the Y start |
| `Launch.LaunchOptions.YEnd` | rs/java/android/renderscript/Script.java:528-530 | the same for the Y end |
| `Launch.LaunchOptions.ZStart` | rs/java/android/renderscript/Script.java:536-538 | the same for the Z start |
| `Launch.LaunchOptions.ZEnd` | rs/java/android/renderscript/Script.java:544-546 | the same for the Z end |
| `Launch.BuildLimits` | rs/java/android/renderscript/Script.java:168-178 | the filled array holds none without options, otherwise exactly [xstart, xend, ystart, yend, zstart, zend] as the getters report them |
| `Launch.ClipVector` | rs/java/android/renderscript/Script.java:168-178 | a clip vector is sent exactly when options are given, it has six bounds, and for options that kept their invariant each dimension is (0, 0) or has 0 <= start < end |
| `Launch.IdsOf` | rs/java/android/renderscript/Script.java:212-215 | the input ids have the inputs' length, and position i holds the id of input i |
| `Launch.IdsOfAppend` | rs/java/android/renderscript/Script.java:212-215 | collecting ids distributes over concatenation of inputs, so order is never changed |
| `Launch.SingleInIds` | rs/java/android/renderscript/Script.java:152-156 | the single-input form sends no ids for a null input, otherwise what the array form sends for that one input |
| `Launch.BuildArrayLaunch` | rs/java/android/renderscript/Script.java:212-237 | the counting loop and the following steps build the request with the inputs' ids in order, the output id or 0, the packed arguments and the clip vector |
| `Scripts.KernelID.constructor` | rs/java/android/renderscript/Script.java:39-44 | a kernel identifier records its handle, context, script, slot and signature |
| `Scripts.FieldID.constructor` | rs/java/android/renderscript/Script.java:79-83 | a field identifier records its handle, context, script and slot |
| `Scripts.Script.constructor` | rs/java/android/renderscript/Script.java:244-248 | a new script has empty caches and a fresh one-element input-id buffer |
| `Scripts.Script.CreateKernelID` | rs/java/android/renderscript/Script.java:51-66 | a cached slot returns the stored identifier, whatever the signature and elements, with no engine call. A miss makes exactly one creation call. A zero handle throws and leaves the cache unchanged. Otherwise the only change to the cache is slot mapped to a fresh identifier carrying the handle, this script, the slot and the signature |
| `Scripts.Script.CreateFieldID` | rs/java/android/renderscript/Script.java:90-104 | the same get-or-create rule for fields, keyed by slot only |
| `Scripts.Script.Invoke` | rs/java/android/renderscript/Script.java:111-113 | exactly one no-argument invoke call for the slot |
| `Scripts.Script.InvokeWithArgs` | rs/java/android/renderscript/Script.java:119-125 | the packed bytes are sent when given; null arguments make exactly the no-argument call |
| `Scripts.Script.ForEachWithOptions` | rs/java/android/renderscript/Script.java:140-181 | a null input with a null output throws, with no engine call and the buffer untouched. Otherwise one launch is dispatched: a one-element id sequence (or none for a null input), output id 0 for no output, the packed bytes and the clip vector |
| `Scripts.Script.ForEach` | rs/java/android/renderscript/Script.java:131-134 | the same launch with no clip vector; the input-id buffer holds the input's id after a launch with an input and is untouched otherwise; a failed call leaves log, variables and buffer unchanged |
| `Scripts.Script.ForEachMultiWithOptions` | rs/java/android/renderscript/Script.java:198-240 | one launch is dispatched with the ids of `ains` in caller order, the output id or 0, the packed bytes and the clip vector |
| `Scripts.Script.ForEachMulti` | rs/java/android/renderscript/Script.java:188-191 | the same launch with no clip vector |
| `Scripts.IsSimple1D` | rs/java/android/renderscript/Script.java:264-265 | a shape passes the gate exactly when it is fixed by its X extent alone: Y and Z are 0, no mipmaps, no faces |
| `Scripts.Script.BindAllocation` | rs/java/android/renderscript/Script.java:255-276 | null binds id 0. For targetSdk >= 20, a buffer with mipmaps, faces, Y != 0 or Z != 0 throws before any bind call. Otherwise the buffer's id is bound at the slot |
| `Scripts.Script.SetVarInt` | rs/java/android/renderscript/Script.java:304-306 | the engine stores the value for the variable |
| `Scripts.Script.GetVarInt` | rs/java/android/renderscript/Script.java:307-309 | the value returned is the one the engine holds |
| `Scripts.Script.SetVarBool` | rs/java/android/renderscript/Script.java:328-330 | the engine is sent and stores 1 for true, 0 for false |
| `Scripts.Script.GetVarBool` | rs/java/android/renderscript/Script.java:331-333 | true exactly when the held integer is > 0 |
| `Scripts.Script.SetVarObject` | rs/java/android/renderscript/Script.java:339-343 | a null object is sent as id 0, any other object as its handle |
| `Scenarios.KernelIDRequestedTwice` | rs/java/android/renderscript/Script.java:53-56 | once a request has succeeded, a second request for the same slot with other signature and element hints returns the same object; both together make at most one engine call |
| `Scenarios.FieldIDRequestedTwice` | rs/java/android/renderscript/Script.java:91-94 | the same for fields |
| `Scenarios.BoolReadBack` | rs/java/android/renderscript/Script.java:328-333 | `setVar(i, b)` followed by `getVarB(i)` returns b |
| `Scenarios.ClipOnlyX` | rs/java/android/renderscript/Script.java:453-460 | options with only X set to [2, 10) send [2, 10, 0, 0, 0, 0] |
| `Scenarios.UnsetOptionsStillSendBounds` | rs/java/android/renderscript/Script.java:168-178 | options never set send six zeros, not "no clip vector" |
| `Scenarios.EmptyInputsNoOutput` | rs/java/android/renderscript/Script.java:207-215 | an empty input array with no output is dispatched with no input ids and output id 0 |
| `Scenarios.InputsKeepOrder` | rs/java/android/renderscript/Script.java:212-215 | inputs [a, b] reach the engine as [a's id, b's id] |

## Left out

- The engine's own behaviour (`mRS.n*`, in `RenderScript.java`, which is not part of this model). It is represented only by the call log, the handle supplier and the variable store.
- `validate` and `validateObject`: checks of the context and of an object's owning context, both in `RenderScript.java`. Every object passed is taken to belong to the script's context, so the model has no validation errors.
- `getID`: its failure on a destroyed object is not modelled. Its "id 0" failure is excluded by typing every handle as a non-zero `Handle`.
- `setVar(int, float)`/`getVarF`, `setVar(int, double)`/`getVarD` and `setVar(int, long)`/`getVarJ`: plain pass-throughs with no logic of their own.
- `setVar(int, FieldPacker)`, `setVar(int, FieldPacker, Element, int[])` and `getVarV`: they only forward packer bytes and element ids.
- `setTimeZone`: its encoding comes from `String.getBytes`, and its failure path depends on the environment.
- `Builder` and `FieldBase`: they allocate through `Allocation.createSized`, which is not part of this model.
- The unused `LaunchOptions.strategy` field.
- Thread safety of the caches: the source has no synchronization.
- Scripts.Script.ForEachMultiWithOptions: a null `ains` array and a null element of `ains` are excluded by the parameter type. In the source both raise a NullPointerException (the loop at line 202 and the read at line 214). The null check at lines 207-209 therefore never fires and is not modelled as an error path.
- `FieldPacker` bytes are fixed per object (`const data`). The packer's own mutating methods are not part of this model.
- `mInIdsBuffer` is passed to the engine by reference. The model records the buffer's contents as they are at the moment of the call.
- Java `int` overflow: nothing in this core does arithmetic, so the 32- and 64-bit widths appear only as ranges on values.
- Scripts.Script.SetVarObject: object variables are modelled only for a standalone `BaseObj` class. In the source `Allocation` and `Element` are subclasses of `BaseObj`; the model has no subtyping between them, because traits are not used in this model.
- Scripts.Script.Invoke, InvokeWithArgs, ForEachWithOptions, ForEach, ForEachMultiWithOptions and ForEachMulti: the script code they run may change script variables. Their contracts leave the variable store unconstrained after a call that reaches the engine.
