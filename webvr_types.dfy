/** Value types shared by the WebVR display session: the device descriptor,
    frame data, the reply shape of the WebVR thread, the requests a session
    sends to it, the commands it sends to the compositor, and device events. */
module WebVRTypes {

  /** An IEEE-754 binary32 value. Only its bit pattern is kept: the session
      copies bounds values around and never computes with them. */
  datatype Float32 = Float32(bits: bv32)

  /** An IEEE-754 binary64 value (depth range, timestamps), kept opaque. */
  datatype Float64 = Float64(bits: bv64)

  /** 0.01, the initial near depth of a session. */
  const DEFAULT_DEPTH_NEAR := Float64(0x3F84_7AE1_47AE_147B)
  /** 10000.0, the initial far depth of a session. */
  const DEFAULT_DEPTH_FAR := Float64(0x40C3_8800_0000_0000)

  datatype Option<+T> = None | Some(value: T)

  /** The reply of every WebVR-thread request: `WebVRResult<T>`, a value or a
      reason string. */
  datatype Result<+T> = Ok(value: T) | Err(error: string)

  /** A bounds rectangle as stored in a layer: always exactly four values. */
  type Bounds4 = s: seq<Float32> | |s| == 4 witness [Float32(0), Float32(0), Float32(0), Float32(0)]

  /** The device type the WebVR thread returns for a granted presentation; the
      session uses it as its compositor identifier. */
  datatype DeviceType = DeviceType(tag: nat)

  /** A WebGL rendering context, by identity. */
  datatype ContextId = ContextId(id: nat)

  /** A frame-request callback supplied by script, by identity. */
  datatype Callback = Callback(id: nat)

  datatype Capabilities = Capabilities(
    hasPosition: bool,
    hasOrientation: bool,
    hasExternalDisplay: bool,
    canPresent: bool)

  /** The device descriptor; `details` stands for the stage and eye
      parameters, which the session only copies. */
  datatype DisplayData = DisplayData(
    displayId: nat,
    displayName: string,
    connected: bool,
    capabilities: Capabilities,
    details: nat)

  /** A pose/projection snapshot, kept opaque: it is only ever replaced whole. */
  datatype FrameData = FrameData(snapshot: nat)

  /** Stands for the device library's default frame data, the value a session
      starts with. */
  const DEFAULT_FRAME_DATA := FrameData(0)

  /** The reason attached to activate and deactivate events, opaque here. */
  datatype EventReason = EventReason(code: nat)

  /** Events the WebVR thread delivers to a session. */
  datatype DisplayEvent =
    | Connect(display: DisplayData)
    | Disconnect(id: nat)
    | Activate(display: DisplayData, reason: EventReason)
    | Deactivate(display: DisplayData, reason: EventReason)
    | Blur(display: DisplayData)
    | Focus(display: DisplayData)
    | PresentChange(display: DisplayData, presenting: bool)
    | Change(display: DisplayData)

  /** The requests a session sends to the WebVR thread, without the pipeline
      id and the reply channel. */
  datatype WebVRMsg =
    | GetFrameData(displayId: nat, depthNear: Float64, depthFar: Float64)
    | ResetPose(displayId: nat)
    | RequestPresent(displayId: nat)
    | ExitPresent(displayId: nat)

  /** Commands for the compositor, carrying the compositor identifier. */
  datatype VRCompositorCommand =
    | Create(compositorId: DeviceType)
    | SyncPoses(compositorId: DeviceType)
    | SubmitFrame(compositorId: DeviceType, leftBounds: Bounds4, rightBounds: Bounds4)
    | Release(compositorId: DeviceType)

  /** A compositor command sent through the renderer of a WebGL context. */
  datatype CanvasMsg = WebVR(via: ContextId, command: VRCompositorCommand)

  /** Why a step of the session aborts the script thread. */
  datatype PanicReason =
    | IndexOutOfBounds(index: nat, len: nat)
    | UnwrapNone(field: string)

  /** The result of an operation that may return an error or abort. */
  datatype Outcome<+T> = Success(value: T) | Failure(error: string) | Panic(reason: PanicReason)

  /** What becomes of the promise returned by requestPresent or exitPresent;
      when the operation aborts, the promise is never settled. */
  datatype Promise = Resolved | Rejected(reason: string) | Panicked(panic: PanicReason)
}
