/** Call sites in the style of generated reflected code, showing what a
    caller can conclude from the contracts of `Script` alone. */
module Scenarios {
  import opened Wrappers
  import opened Runtime
  import opened Marshal
  import opened Launch
  import opened Scripts

  /** Asking twice for the kernel of one slot yields the same object, with
      different signatures and element hints the second time, and at most one
      engine call in all. */
  method KernelIDRequestedTwice(s: Script, slot: i32, sig1: i32, sig2: i32,
                                ein1: Element?, eout1: Element?, ein2: Element?, eout2: Element?)
    returns (first: Result<KernelID, Error>, second: Result<KernelID, Error>)
    requires s.Valid()
    modifies s`kernelIds, s.rs`log
    ensures s.Valid()
    ensures first.Ok? ==> second == first && |s.rs.log| <= |old(s.rs.log)| + 1
  {
    first := s.CreateKernelID(slot, sig1, ein1, eout1);
    second := s.CreateKernelID(slot, sig2, ein2, eout2);
  }

  /** The same for the field of one slot. */
  method FieldIDRequestedTwice(s: Script, slot: i32, e1: Element?, e2: Element?)
    returns (first: Result<FieldID, Error>, second: Result<FieldID, Error>)
    requires s.Valid()
    modifies s`fieldIds, s.rs`log
    ensures s.Valid()
    ensures first.Ok? ==> second == first && |s.rs.log| <= |old(s.rs.log)| + 1
  {
    first := s.CreateFieldID(slot, e1);
    second := s.CreateFieldID(slot, e2);
  }

  /** A boolean stored with `setVar` is read back unchanged by `getVarB`. */
  method BoolReadBack(s: Script, index: i32, b: bool) returns (back: bool)
    modifies s.rs`log, s.rs`intVars
    ensures back == b
  {
    s.SetVarBool(index, b);
    back := s.GetVarBool(index);
  }

  /** Options with only X set to [2, 10) send the Y and Z pairs as (0, 0). */
  method ClipOnlyX() returns (limits: Option<seq<i32>>)
    ensures limits == Some([2, 10, 0, 0, 0, 0])
  {
    var sc := new LaunchOptions();
    var _ := sc.SetX(2, 10);
    limits := BuildLimits(sc);
  }

  /** Options never set still send a clip vector, of six zeros; telling
      that no dimension is clipped is left to the engine. */
  method UnsetOptionsStillSendBounds() returns (limits: Option<seq<i32>>)
    ensures limits == Some([0, 0, 0, 0, 0, 0])
  {
    var sc := new LaunchOptions();
    limits := BuildLimits(sc);
  }

  /** An empty input array with no output is not rejected: a launch with no
      input ids and output id 0 is dispatched. */
  method EmptyInputsNoOutput(s: Script, slot: i32)
    modifies s.rs`log, s.rs`intVars
    ensures s.rs.log == old(s.rs.log) + [Call.ForEach(s.id, LaunchRequest(slot, Some([]), 0, None, None))]
  {
    var ains := new Allocation[0];
    s.ForEachMulti(slot, ains, null, null);
  }

  /** Inputs [a, b] reach the engine as [a's id, b's id]. */
  method InputsKeepOrder(s: Script, slot: i32, a: Allocation, b: Allocation, aout: Allocation)
    modifies s.rs`log, s.rs`intVars
    ensures s.rs.log == old(s.rs.log) + [Call.ForEach(s.id, LaunchRequest(slot, Some([a.id, b.id]), aout.id, None, None))]
  {
    var ains := new Allocation[2][a, b];
    assert ains[..] == [a, b];
    assert IdsOf([a, b]) == [a.id, b.id];
    s.ForEachMulti(slot, ains, aout, null);
  }
}
