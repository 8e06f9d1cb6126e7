/** Validation of the layer handed to requestPresent: the WebGL context it
    names and its two optional bounds arrays, parsed into a stored layer. */
module Layer {
  import opened WebVRTypes

  const BOUNDS_LENGTH_MSG := "The number of values in the leftBounds/rightBounds arrays must be 0 or 4"
  const NO_CONTEXT_MSG := "VRLayer source must be a WebGL Context"

  /** The layer as the session stores it: two four-value rectangles. */
  datatype LayerData = LayerData(leftBounds: Bounds4, rightBounds: Bounds4)

  /** Stands for the device library's default layer, the initial value of the
      session's layer and of every freshly validated one. */
  const DEFAULT_LAYER := LayerData(
    [Float32(0), Float32(0), Float32(0), Float32(0)],
    [Float32(0), Float32(0), Float32(0), Float32(0)])

  /** The layer as script supplies it. `context` is the WebGL context obtained
      from the layer's source, or None when there is no source or the source
      yields no WebGL context. */
  datatype LayerInit = LayerInit(
    context: Option<ContextId>,
    leftBounds: Option<seq<Float32>>,
    rightBounds: Option<seq<Float32>>)

  /** The rule the layer must meet: a bounds array is absent, empty or has
      exactly four values. */
  predicate BoundsAcceptable(src: Option<seq<Float32>>) {
    src.None? || |src.value| == 0 || |src.value| == 4
  }

  predicate LongBounds(src: Option<seq<Float32>>) {
    src.Some? && |src.value| > 4
  }

  predicate ShortBounds(src: Option<seq<Float32>>) {
    src.Some? && 0 < |src.value| < 4
  }

  /** What an acceptable bounds source leaves in a rectangle that held `init`. */
  function StoredBounds(src: Option<seq<Float32>>, init: Bounds4): Bounds4 {
    if src.Some? && |src.value| == 4 then src.value else init
  }

  /** The outcome of parsing one bounds source into a rectangle holding `init`:
      absent and empty sources keep `init`, four values replace it, more than
      four are an error, and one to three values abort on index `len`. */
  function ParsedBounds(src: Option<seq<Float32>>, init: Bounds4): (r: Outcome<Bounds4>)
    ensures r.Success? <==> BoundsAcceptable(src)
    ensures r.Success? ==> r.value == StoredBounds(src, init)
    ensures r.Failure? <==> LongBounds(src)
    ensures r.Failure? ==> r.error == BOUNDS_LENGTH_MSG
    ensures r.Panic? <==> ShortBounds(src)
    ensures r.Panic? ==> r.reason == IndexOutOfBounds(|src.value|, |src.value|)
  {
    match src
    case None => Success(init)
    case Some(values) =>
      if |values| == 0 then Success(init)
      else if |values| > 4 then Failure(BOUNDS_LENGTH_MSG)
      else if |values| < 4 then Panic(IndexOutOfBounds(|values|, |values|))
      else Success(values)
  }

  /** The outcome of validating a layer: the context is checked first, then the
      left bounds, then the right bounds. */
  function LayerCheck(l: LayerInit): (r: Outcome<(LayerData, ContextId)>)
    ensures l.context.None? ==> r == Failure(NO_CONTEXT_MSG)
    ensures r.Success? <==>
      l.context.Some? && BoundsAcceptable(l.leftBounds) && BoundsAcceptable(l.rightBounds)
    ensures r.Success? ==>
      r.value == (LayerData(StoredBounds(l.leftBounds, DEFAULT_LAYER.leftBounds),
                            StoredBounds(l.rightBounds, DEFAULT_LAYER.rightBounds)),
                  l.context.value)
    ensures l.context.Some? && r.Failure? ==> r.error == BOUNDS_LENGTH_MSG
    ensures r.Panic? <==>
      l.context.Some? &&
      (ShortBounds(l.leftBounds) || (BoundsAcceptable(l.leftBounds) && ShortBounds(l.rightBounds)))
  {
    match l.context
    case None => Failure(NO_CONTEXT_MSG)
    case Some(ctx) =>
      match ParsedBounds(l.leftBounds, DEFAULT_LAYER.leftBounds)
      case Failure(e) => Failure(e)
      case Panic(p) => Panic(p)
      case Success(left) =>
        match ParsedBounds(l.rightBounds, DEFAULT_LAYER.rightBounds)
        case Failure(e) => Failure(e)
        case Panic(p) => Panic(p)
        case Success(right) => Success((LayerData(left, right), ctx))
  }

  /** Parses a bounds source into the four-slot buffer `dst`, copying index by
      index. With one to three values the copy reaches index `len` and aborts,
      having overwritten the first `len` slots. */
  method ParseBounds(src: Option<seq<Float32>>, dst: array<Float32>) returns (r: Outcome<()>)
    requires dst.Length == 4
    modifies dst
    ensures r.Success? <==> BoundsAcceptable(src)
    ensures r.Failure? ==> r.error == BOUNDS_LENGTH_MSG && LongBounds(src)
    ensures r.Panic? ==> r.reason == IndexOutOfBounds(|src.value|, |src.value|) && ShortBounds(src)
    ensures !ShortBounds(src) ==> dst[..] == StoredBounds(src, old(dst[..]))
    ensures ShortBounds(src) ==> dst[..] == src.value + old(dst[..])[|src.value|..]
  {
    match src
    case None =>
      return Success(());
    case Some(values) =>
      if |values| == 0 {
        return Success(());
      }
      if |values| > 4 {
        return Failure(BOUNDS_LENGTH_MSG);
      }
      for i := 0 to 4
        invariant i <= |values|
        invariant forall k :: 0 <= k < i ==> dst[k] == values[k]
        invariant forall k :: i <= k < 4 ==> dst[k] == old(dst[k])
      {
        if i >= |values| {
          assert dst[..] == values + old(dst[..])[i..];
          return Panic(IndexOutOfBounds(i, |values|));
        }
        dst[i] := values[i];
      }
      assert dst[..] == values;
      return Success(());
  }

  /** Validates a layer: a WebGL context is required, then both bounds are
      parsed into a fresh default layer. */
  method ValidateLayer(l: LayerInit) returns (r: Outcome<(LayerData, ContextId)>)
    ensures r == LayerCheck(l)
  {
    match l.context
    case None =>
      return Failure(NO_CONTEXT_MSG);
    case Some(ctx) =>
      var left := new Float32[4](i requires 0 <= i < 4 => DEFAULT_LAYER.leftBounds[i]);
      var right := new Float32[4](i requires 0 <= i < 4 => DEFAULT_LAYER.rightBounds[i]);
      assert left[..] == DEFAULT_LAYER.leftBounds;
      assert right[..] == DEFAULT_LAYER.rightBounds;
      var status := ParseBounds(l.leftBounds, left);
      if status.Failure? {
        return Failure(status.error);
      }
      if status.Panic? {
        return Panic(status.reason);
      }
      status := ParseBounds(l.rightBounds, right);
      if status.Failure? {
        return Failure(status.error);
      }
      if status.Panic? {
        return Panic(status.reason);
      }
      return Success((LayerData(left[..], right[..]), ctx));
  }
}
