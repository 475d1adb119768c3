/** Launch geometry: the clip region a caller may attach to a kernel launch
    (`Script.LaunchOptions`), the six-integer clip vector a launch sends, and
    the ordered input ids of the array form of `forEach`. */
module Launch {
  import opened Wrappers
  import opened Runtime
  import opened Marshal

  const InvalidDimensions: string := "Invalid dimensions"

  /** What every (start, end) pair of a `LaunchOptions` satisfies: still the
      initial (0, 0) of an unclipped dimension, or a range a setter accepted. */
  predicate WellFormedRange(start: i32, end: i32)
  {
    (start == 0 && end == 0) || (0 <= start < end)
  }

  /** The range a setter rejects with "Invalid dimensions". */
  predicate RejectedRange(start: i32, end: i32)
  {
    start < 0 || end <= start
  }

  /** A 3-dimensional clip region for one launch; an end of 0 leaves that
      dimension unclipped. */
  class LaunchOptions {
    var xstart: i32
    var ystart: i32
    var xend: i32
    var yend: i32
    var zstart: i32
    var zend: i32

    ghost predicate Valid()
      reads this
    {
      WellFormedRange(xstart, xend) && WellFormedRange(ystart, yend) && WellFormedRange(zstart, zend)
    }

    /** Every bound starts at 0: nothing is clipped. */
    constructor ()
      ensures Valid()
      ensures XStart() == 0 && XEnd() == 0 && YStart() == 0 && YEnd() == 0
      ensures ZStart() == 0 && ZEnd() == 0
    {
      xstart, ystart, xend, yend, zstart, zend := 0, 0, 0, 0, 0, 0;
    }

    /** The getters: under the invariant, each bound they report forms a
        well-formed range with its partner, so a caller never sees a start
        below 0, or a non-zero end at or below its start. */
    function XStart(): (r: i32)
      reads this
      ensures Valid() ==> WellFormedRange(r, xend)
    {
      xstart
    }

    function XEnd(): (r: i32)
      reads this
      ensures Valid() ==> WellFormedRange(xstart, r)
    {
      xend
    }

    function YStart(): (r: i32)
      reads this
      ensures Valid() ==> WellFormedRange(r, yend)
    {
      ystart
    }

    function YEnd(): (r: i32)
      reads this
      ensures Valid() ==> WellFormedRange(ystart, r)
    {
      yend
    }

    function ZStart(): (r: i32)
      reads this
      ensures Valid() ==> WellFormedRange(r, zend)
    {
      zstart
    }

    function ZEnd(): (r: i32)
      reads this
      ensures Valid() ==> WellFormedRange(zstart, r)
    {
      zend
    }

    /** Sets the X range, or throws and changes nothing. */
    method SetX(xstartArg: i32, xendArg: i32) returns (r: Result<LaunchOptions, Error>)
      requires Valid()
      modifies this
      ensures Valid()
      ensures RejectedRange(xstartArg, xendArg) ==>
        r == Err(IllegalArgument(InvalidDimensions)) && unchanged(this)
      ensures !RejectedRange(xstartArg, xendArg) ==>
        && r == Ok(this)
        && XStart() == xstartArg && XEnd() == xendArg
        && YStart() == old(YStart()) && YEnd() == old(YEnd())
        && ZStart() == old(ZStart()) && ZEnd() == old(ZEnd())
    {
      if xstartArg < 0 || xendArg <= xstartArg {
        return Err(IllegalArgument(InvalidDimensions));
      }
      xstart := xstartArg;
      xend := xendArg;
      return Ok(this);
    }

    /** Sets the Y range, or throws and changes nothing. */
    method SetY(ystartArg: i32, yendArg: i32) returns (r: Result<LaunchOptions, Error>)
      requires Valid()
      modifies this
      ensures Valid()
      ensures RejectedRange(ystartArg, yendArg) ==>
        r == Err(IllegalArgument(InvalidDimensions)) && unchanged(this)
      ensures !RejectedRange(ystartArg, yendArg) ==>
        && r == Ok(this)
        && YStart() == ystartArg && YEnd() == yendArg
        && XStart() == old(XStart()) && XEnd() == old(XEnd())
        && ZStart() == old(ZStart()) && ZEnd() == old(ZEnd())
    {
      if ystartArg < 0 || yendArg <= ystartArg {
        return Err(IllegalArgument(InvalidDimensions));
      }
      ystart := ystartArg;
      yend := yendArg;
      return Ok(this);
    }

    /** Sets the Z range, or throws and changes nothing. */
    method SetZ(zstartArg: i32, zendArg: i32) returns (r: Result<LaunchOptions, Error>)
      requires Valid()
      modifies this
      ensures Valid()
      ensures RejectedRange(zstartArg, zendArg) ==>
        r == Err(IllegalArgument(InvalidDimensions)) && unchanged(this)
      ensures !RejectedRange(zstartArg, zendArg) ==>
        && r == Ok(this)
        && ZStart() == zstartArg && ZEnd() == zendArg
        && XStart() == old(XStart()) && XEnd() == old(XEnd())
        && YStart() == old(YStart()) && YEnd() == old(YEnd())
    {
      if zstartArg < 0 || zendArg <= zstartArg {
        return Err(IllegalArgument(InvalidDimensions));
      }
      zstart := zstartArg;
      zend := zendArg;
      return Ok(this);
    }
  }

  /** The clip vector a launch sends: none exactly when there are no options,
      otherwise six bounds, the start and end of X, Y and Z in that order. In
      any vector sent from options that kept their invariant, a dimension's
      end of 0 comes with a start of 0, and a non-zero end lies above a
      non-negative start. */
  function ClipVector(sc: LaunchOptions?): (r: Option<seq<i32>>)
    reads sc
    ensures r.Some? <==> sc != null
    ensures r.Some? ==> |r.value| == 6
    ensures sc != null && sc.Valid() ==>
      forall d :: 0 <= d < 3 ==> WellFormedRange(r.value[2 * d], r.value[2 * d + 1])
  {
    if sc == null then None
    else Some([sc.XStart(), sc.XEnd(), sc.YStart(), sc.YEnd(), sc.ZStart(), sc.ZEnd()])
  }

  /** `limits = new int[6]; limits[0] = sc.xstart; ...`, or null without options. */
  method BuildLimits(sc: LaunchOptions?) returns (limits: Option<seq<i32>>)
    ensures limits == ClipVector(sc)
    ensures limits.Some? ==> |limits.value| == 6
  {
    if sc == null {
      return None;
    }
    var a := new i32[6];
    a[0] := sc.xstart;
    a[1] := sc.xend;
    a[2] := sc.ystart;
    a[3] := sc.yend;
    a[4] := sc.zstart;
    a[5] := sc.zend;
    assert a[..] == [a[0], a[1], a[2], a[3], a[4], a[5]];
    limits := Some(a[..]);
  }

  /** The input ids of an array of inputs, in the caller's order. */
  function IdsOf(ains: seq<Allocation>): (ids: seq<i64>)
    ensures |ids| == |ains|
    ensures forall i :: 0 <= i < |ains| ==> ids[i] == ains[i].id
  {
    if ains == [] then [] else [ains[0].id] + IdsOf(ains[1..])
  }

  /** Collecting ids commutes with concatenating inputs: no input is moved
      across another. It follows from the pointwise contract of `IdsOf`. */
  lemma IdsOfAppend(a: seq<Allocation>, b: seq<Allocation>)
    ensures IdsOf(a + b) == IdsOf(a) + IdsOf(b)
  {
  }

  /** The `in_ids` of the single-input `forEach`: the one-element buffer
      holding the input's id, or null without an input. It is what the array
      form sends for a one-element array. */
  function SingleInIds(ain: Allocation?): (ids: Option<seq<i64>>)
    ensures ids.Some? <==> ain != null
    ensures ain != null ==> ids.value == IdsOf([ain])
  {
    if ain == null then None else Some([ain.id])
  }

  /** The request the array form of `forEach` dispatches, built as the source
      builds it: `in_ids` filled in a counting loop, then the output id,
      packed arguments and clip vector. */
  method BuildArrayLaunch(slot: i32, ains: array<Allocation>, aout: Allocation?, v: FieldPacker?,
                          sc: LaunchOptions?)
    returns (req: LaunchRequest)
    ensures req == LaunchRequest(slot, Some(IdsOf(ains[..])), AllocationId(aout), ParamsOf(v), ClipVector(sc))
  {
    var inIds := new i64[ains.Length];
    var index := 0;
    while index < ains.Length
      invariant 0 <= index <= ains.Length
      invariant forall k :: 0 <= k < index ==> inIds[k] == ains[k].id
    {
      inIds[index] := ains[index].id;
      index := index + 1;
    }
    var outId := AllocationId(aout);
    var params := ParamsOf(v);
    var limits := BuildLimits(sc);
    assert inIds[..] == IdsOf(ains[..]);
    req := LaunchRequest(slot, Some(inIds[..]), outId, params, limits);
  }
}
