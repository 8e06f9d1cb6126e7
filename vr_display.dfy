/** The per-display presentation session: the state a VRDisplay keeps for one
    device and one page, and the operations script and the WebVR thread drive
    it with. Replies of the WebVR thread are parameters (None when the window
    has no WebVR thread); requests and compositor commands the session sends
    are appended to logs. */
module VRDisplaySession {
  import opened WebVRTypes
  import opened Layer
  import opened RafRegistry

  const CAN_PRESENT_FALSE_MSG := "VRDisplay canPresent is false"
  const LAYER_COUNT_MSG := "The number of layers must be 1"
  const NOT_AVAILABLE_MSG := "Not available"
  const NOT_PRESENTING_MSG := "VRDisplay is not presenting"

  /** Where the frame-synchronization thread is: spawned but not yet past
      its compositor `Create`, looping over pose syncs, or returned after a
      failed sync. */
  datatype ThreadPhase = Spawned | Syncing | Ended

  /** The frame-synchronization thread `init_present` spawns, with the
      renderer and compositor identifier it captured when it was spawned. */
  datatype RafThread = RafThread(renderer: ContextId, compositorId: DeviceType, phase: ThreadPhase)

  /** A snapshot of every field of a session, for stating what an operation
      changes and what it leaves alone. */
  datatype Session = Session(
    display: DisplayData,
    depthNear: Float64,
    depthFar: Float64,
    presenting: bool,
    frameData: FrameData,
    layer: LayerData,
    layerCtx: Option<ContextId>,
    compositorId: Option<DeviceType>,
    nextRafId: nat,
    rafCallbackList: seq<Entry>,
    sentToWebVR: seq<WebVRMsg>,
    sentToCompositor: seq<CanvasMsg>,
    firedEvents: seq<DisplayEvent>,
    rafThread: Option<RafThread>,
    drainedBelow: nat)

  /** The checks requestPresent makes before it asks the device for anything:
      the display must be able to present, exactly one layer must be given,
      and that layer must validate. */
  function PresentChecks(d: DisplayData, layers: seq<LayerInit>): (r: Outcome<(LayerData, ContextId)>)
    ensures !d.capabilities.canPresent ==> r == Failure(CAN_PRESENT_FALSE_MSG)
    ensures d.capabilities.canPresent && |layers| != 1 ==> r == Failure(LAYER_COUNT_MSG)
    ensures r.Success? <==>
      d.capabilities.canPresent && |layers| == 1 && LayerCheck(layers[0]).Success?
    ensures r.Panic? <==>
      d.capabilities.canPresent && |layers| == 1 && LayerCheck(layers[0]).Panic?
    ensures r.Success? ==> r.value.1 == layers[0].context.value
    ensures d.capabilities.canPresent && |layers| == 1 ==> r == LayerCheck(layers[0])
  {
    if !d.capabilities.canPresent then Failure(CAN_PRESENT_FALSE_MSG)
    else if |layers| != 1 then Failure(LAYER_COUNT_MSG)
    else LayerCheck(layers[0])
  }

  /** The renderer and compositor identifier a compositor command needs: the
      layer context is unwrapped first, then the compositor identifier; a
      missing one aborts. */
  function CompositorTarget(ctx: Option<ContextId>, id: Option<DeviceType>): (r: Outcome<(ContextId, DeviceType)>)
    ensures r.Success? <==> ctx.Some? && id.Some?
    ensures r.Success? ==> r.value == (ctx.value, id.value)
    ensures !r.Success? ==> r.Panic?
    ensures ctx.None? ==> r.reason == UnwrapNone("layer_ctx")
    ensures ctx.Some? && id.None? ==> r.reason == UnwrapNone("compositor_id")
  {
    if ctx.None? then Panic(UnwrapNone("layer_ctx"))
    else if id.None? then Panic(UnwrapNone("compositor_id"))
    else Success((ctx.value, id.value))
  }

  class VRDisplay {
    var display: DisplayData
    var depthNear: Float64
    var depthFar: Float64
    var presenting: bool
    var frameData: FrameData
    var layer: LayerData
    var layerCtx: Option<ContextId>
    var compositorId: Option<DeviceType>
    var nextRafId: nat
    var rafCallbackList: seq<Entry>
    /** Requests sent to the WebVR thread, oldest first. */
    var sentToWebVR: seq<WebVRMsg>
    /** Commands sent to the compositor, oldest first. */
    var sentToCompositor: seq<CanvasMsg>
    /** Device events forwarded to script as DOM events, oldest first. */
    var firedEvents: seq<DisplayEvent>
    /** The most recently spawned frame-synchronization thread, if any. */
    var rafThread: Option<RafThread>
    /** Every handle below this one was issued before the last drain, so it is
        no longer in the registry. */
    ghost var drainedBelow: nat

    ghost function State(): Session
      reads this
    {
      Session(display, depthNear, depthFar, presenting, frameData, layer, layerCtx,
              compositorId, nextRafId, rafCallbackList, sentToWebVR, sentToCompositor, firedEvents,
              rafThread, drainedBelow)
    }

    /** Handles start at 1, the registry is well formed below the next one,
        and it holds no handle issued before the last drain. */
    ghost predicate Valid()
      reads this
    {
      && nextRafId >= 1
      && WellFormed(rafCallbackList, nextRafId)
      && drainedBelow <= nextRafId
      && HandlesFrom(rafCallbackList, drainedBelow)
    }

    /** While presenting there is a compositor identifier and a layer context
        to send commands through. A PresentChange event can set the presenting
        flag on its own and so break this; `InitPresent` breaks it only when
        called without a layer context, which its one caller never does. */
    ghost predicate HasTarget()
      reads this
    {
      presenting ==> compositorId.Some? && layerCtx.Some?
    }

    /** A session for display `d`: idle, default depth range, frame data and
        layer, no compositor identifier, first handle 1, empty registry. */
    constructor (d: DisplayData)
      ensures Valid()
      ensures State() == Session(d, DEFAULT_DEPTH_NEAR, DEFAULT_DEPTH_FAR, false, DEFAULT_FRAME_DATA,
                                 DEFAULT_LAYER, None, None, 1, [], [], [], [], None, 1)
    {
      display := d;
      depthNear := DEFAULT_DEPTH_NEAR;
      depthFar := DEFAULT_DEPTH_FAR;
      presenting := false;
      frameData := DEFAULT_FRAME_DATA;
      layer := DEFAULT_LAYER;
      layerCtx := None;
      compositorId := None;
      nextRafId := 1;
      rafCallbackList := [];
      sentToWebVR := [];
      sentToCompositor := [];
      firedEvents := [];
      rafThread := None;
      drainedBelow := 1;
    }

    /** Refreshes the cached frame data from the WebVR thread when there is
        one: a successful reply replaces it whole, an error keeps it. The caller
        always gets the cached data and `true`. */
    method GetFrameData(reply: Option<Result<FrameData>>) returns (ok: bool, data: FrameData)
      requires Valid()
      modifies this
      ensures Valid()
      ensures ok && data == frameData
      ensures reply.None? ==> State() == old(State())
      ensures reply.Some? && reply.value.Ok? ==>
        State() == old(State()).(
          frameData := reply.value.value,
          sentToWebVR := old(sentToWebVR) + [WebVRMsg.GetFrameData(old(display.displayId), old(depthNear), old(depthFar))])
      ensures reply.Some? && reply.value.Err? ==>
        State() == old(State()).(
          sentToWebVR := old(sentToWebVR) + [WebVRMsg.GetFrameData(old(display.displayId), old(depthNear), old(depthFar))])
    {
      if reply.Some? {
        sentToWebVR := sentToWebVR + [WebVRMsg.GetFrameData(display.displayId, depthNear, depthFar)];
        match reply.value {
          case Ok(d) =>
            frameData := d;
          case Err(_) =>
        }
      }
      return true, frameData;
    }

    /** Asks the WebVR thread, when there is one, to recenter the pose; no
        reply is awaited. */
    method ResetPose(hasWebVRThread: bool)
      requires Valid()
      modifies this
      ensures Valid()
      ensures !hasWebVRThread ==> State() == old(State())
      ensures hasWebVRThread ==>
        State() == old(State()).(sentToWebVR := old(sentToWebVR) + [WebVRMsg.ResetPose(old(display.displayId))])
    {
      if hasWebVRThread {
        sentToWebVR := sentToWebVR + [WebVRMsg.ResetPose(display.displayId)];
      }
    }

    /** Sets the near depth sent with later frame-data requests. */
    method SetDepthNear(value: Float64)
      requires Valid()
      modifies this
      ensures Valid()
      ensures State() == old(State()).(depthNear := value)
    {
      depthNear := value;
    }

    /** Sets the far depth sent with later frame-data requests. */
    method SetDepthFar(value: Float64)
      requires Valid()
      modifies this
      ensures Valid()
      ensures State() == old(State()).(depthFar := value)
    {
      depthFar := value;
    }

    /** While presenting, issues the next handle and appends the callback to
        the registry; otherwise the window's own scheduler takes the callback
        and `windowHandle` is what it returned. */
    method RequestAnimationFrame(cb: Callback, windowHandle: nat) returns (handle: nat)
      requires Valid()
      modifies this
      ensures Valid()
      ensures old(presenting) ==>
        handle == old(nextRafId) &&
        State() == old(State()).(
          nextRafId := old(nextRafId) + 1,
          rafCallbackList := old(rafCallbackList) + [Entry(old(nextRafId), Some(cb))])
      ensures !old(presenting) ==> handle == windowHandle && State() == old(State())
    {
      if presenting {
        var rafId := nextRafId;
        RegisterKeepsWellFormed(rafCallbackList, rafId, cb);
        nextRafId := rafId + 1;
        rafCallbackList := rafCallbackList + [Entry(rafId, Some(cb))];
        return rafId;
      } else {
        return windowHandle;
      }
    }

    /** While presenting, clears the callback of the first entry with this
        handle, keeping the entry; an unknown handle, among them every handle
        whose batch was already drained, changes nothing. When idle the
        window's own scheduler is asked instead. */
    method CancelAnimationFrame(handle: nat)
      requires Valid()
      modifies this
      ensures Valid()
      ensures old(presenting) ==>
        State() == old(State()).(rafCallbackList := CancelEntry(old(rafCallbackList), handle))
      ensures !old(presenting) ==> State() == old(State())
      ensures handle < old(drainedBelow) ==> State() == old(State())
    {
      if handle < drainedBelow {
        CancelDrainedHandle(rafCallbackList, drainedBelow, handle);
      }
      if presenting {
        CancelIdempotent(rafCallbackList, nextRafId, handle);
        var found := FindHandle(rafCallbackList, handle);
        if found.Some? {
          var i := found.value;
          rafCallbackList := rafCallbackList[i := rafCallbackList[i].(callback := None)];
        }
      }
    }

    /** Requests exclusive presentation with the given layers. Rejections
        (cannot present, not one layer, invalid layer) come before any request
        is sent; while presenting, the layer is replaced and nothing is sent;
        from idle, the WebVR thread's reply decides, and only an `Ok` starts
        presenting. */
    method RequestPresent(layers: seq<LayerInit>, reply: Option<Result<DeviceType>>) returns (p: Promise)
      requires Valid()
      modifies this
      ensures Valid()
      ensures old(HasTarget()) ==> HasTarget()
      ensures PresentChecks(old(display), layers).Failure? ==>
        p == Rejected(PresentChecks(old(display), layers).error) && State() == old(State())
      ensures PresentChecks(old(display), layers).Panic? ==>
        p == Panicked(PresentChecks(old(display), layers).reason) && State() == old(State())
      ensures PresentChecks(old(display), layers).Success? && old(presenting) ==>
        p == Resolved &&
        State() == old(State()).(
          layer := PresentChecks(old(display), layers).value.0,
          layerCtx := Some(PresentChecks(old(display), layers).value.1))
      ensures PresentChecks(old(display), layers).Success? && !old(presenting) && reply.None? ==>
        p == Rejected(NOT_AVAILABLE_MSG) && State() == old(State())
      ensures PresentChecks(old(display), layers).Success? && !old(presenting) && reply.Some? && reply.value.Err? ==>
        p == Rejected(reply.value.error) &&
        State() == old(State()).(
          sentToWebVR := old(sentToWebVR) + [WebVRMsg.RequestPresent(old(display.displayId))])
      ensures PresentChecks(old(display), layers).Success? && !old(presenting) && reply.Some? && reply.value.Ok? ==>
        p == Resolved &&
        State() == old(State()).(
          layer := PresentChecks(old(display), layers).value.0,
          layerCtx := Some(PresentChecks(old(display), layers).value.1),
          presenting := true,
          compositorId := Some(reply.value.value),
          rafThread := Some(RafThread(PresentChecks(old(display), layers).value.1, reply.value.value, Spawned)),
          sentToWebVR := old(sentToWebVR) + [WebVRMsg.RequestPresent(old(display.displayId))])
    {
      if !display.capabilities.canPresent {
        return Rejected(CAN_PRESENT_FALSE_MSG);
      }
      if |layers| != 1 {
        return Rejected(LAYER_COUNT_MSG);
      }
      var validated := ValidateLayer(layers[0]);
      match validated {
        case Failure(msg) =>
          return Rejected(msg);
        case Panic(reason) =>
          return Panicked(reason);
        case Success(pair) =>
          var (layerBounds, ctx) := pair;
          if presenting {
            layer := layerBounds;
            layerCtx := Some(ctx);
            return Resolved;
          }
          match reply {
            case None =>
              return Rejected(NOT_AVAILABLE_MSG);
            case Some(res) =>
              sentToWebVR := sentToWebVR + [WebVRMsg.RequestPresent(display.displayId)];
              match res {
                case Ok(id) =>
                  layer := layerBounds;
                  layerCtx := Some(ctx);
                  var started := InitPresent(id);
                  assert started.Success?;
                  return Resolved;
                case Err(e) =>
                  return Rejected(e);
              }
          }
      }
    }

    /** Enters the presenting state under compositor identifier `id`, then
        spawns the frame-synchronization thread with the layer's renderer and
        that identifier. Without a layer context it aborts after setting both
        fields and before any thread exists. */
    method InitPresent(id: DeviceType) returns (o: Outcome<()>)
      requires Valid()
      modifies this
      ensures Valid()
      ensures old(layerCtx).None? ==>
        o == Panic(UnwrapNone("layer_ctx")) &&
        State() == old(State()).(presenting := true, compositorId := Some(id))
      ensures old(layerCtx).Some? ==>
        o == Success(()) && HasTarget() &&
        State() == old(State()).(
          presenting := true,
          compositorId := Some(id),
          rafThread := Some(RafThread(old(layerCtx).value, id, Spawned)))
    {
      presenting := true;
      compositorId := Some(id);
      if layerCtx.None? {
        return Panic(UnwrapNone("layer_ctx"));
      }
      rafThread := Some(RafThread(layerCtx.value, id, Spawned));
      return Success(());
    }

    /** Leaves the presenting state and releases the compositor session through
        the layer's renderer. The compositor identifier is kept. */
    method StopPresent() returns (o: Outcome<()>)
      requires Valid()
      modifies this
      ensures Valid()
      ensures CompositorTarget(old(layerCtx), old(compositorId)).Panic? ==>
        o == Panic(CompositorTarget(old(layerCtx), old(compositorId)).reason) &&
        State() == old(State()).(presenting := false)
      ensures CompositorTarget(old(layerCtx), old(compositorId)).Success? ==>
        o == Success(()) &&
        State() == old(State()).(
          presenting := false,
          sentToCompositor := old(sentToCompositor) + [WebVR(old(layerCtx).value, Release(old(compositorId).value))])
    {
      presenting := false;
      var target := CompositorTarget(layerCtx, compositorId);
      if target.Panic? {
        return Panic(target.reason);
      }
      var (ctx, id) := target.value;
      sentToCompositor := sentToCompositor + [WebVR(ctx, Release(id))];
      return Success(());
    }

    /** Ends presentation. Rejects without any change when idle or when there
        is no WebVR thread; an error reply rejects and keeps presenting; an `Ok`
        reply stops presenting and releases the compositor session. */
    method ExitPresent(reply: Option<Result<()>>) returns (p: Promise)
      requires Valid()
      modifies this
      ensures Valid()
      ensures old(HasTarget()) ==> HasTarget() && !p.Panicked?
      ensures !old(presenting) ==> p == Rejected(NOT_PRESENTING_MSG) && State() == old(State())
      ensures old(presenting) && reply.None? ==> p == Rejected(NOT_AVAILABLE_MSG) && State() == old(State())
      ensures old(presenting) && reply.Some? && reply.value.Err? ==>
        p == Rejected(reply.value.error) &&
        State() == old(State()).(sentToWebVR := old(sentToWebVR) + [WebVRMsg.ExitPresent(old(display.displayId))])
      ensures old(presenting) && reply.Some? && reply.value.Ok? &&
              CompositorTarget(old(layerCtx), old(compositorId)).Success? ==>
        p == Resolved &&
        State() == old(State()).(
          presenting := false,
          sentToWebVR := old(sentToWebVR) + [WebVRMsg.ExitPresent(old(display.displayId))],
          sentToCompositor := old(sentToCompositor) + [WebVR(old(layerCtx).value, Release(old(compositorId).value))])
      ensures old(presenting) && reply.Some? && reply.value.Ok? &&
              CompositorTarget(old(layerCtx), old(compositorId)).Panic? ==>
        p == Panicked(CompositorTarget(old(layerCtx), old(compositorId)).reason) &&
        State() == old(State()).(
          presenting := false,
          sentToWebVR := old(sentToWebVR) + [WebVRMsg.ExitPresent(old(display.displayId))])
    {
      if !presenting {
        return Rejected(NOT_PRESENTING_MSG);
      }
      match reply {
        case None =>
          return Rejected(NOT_AVAILABLE_MSG);
        case Some(res) =>
          sentToWebVR := sentToWebVR + [WebVRMsg.ExitPresent(display.displayId)];
          match res {
            case Ok(_) =>
              var stopped := StopPresent();
              if stopped.Panic? {
                return Panicked(stopped.reason);
              }
              return Resolved;
            case Err(e) =>
              return Rejected(e);
          }
      }
    }

    /** While presenting, sends one frame with the stored layer bounds to the
        compositor (`Success(true)`); when idle, does nothing (`Success(false)`). */
    method SubmitFrame() returns (o: Outcome<bool>)
      requires Valid()
      modifies this
      ensures Valid()
      ensures old(HasTarget()) ==> !o.Panic?
      ensures !old(presenting) ==> o == Success(false) && State() == old(State())
      ensures old(presenting) && CompositorTarget(old(layerCtx), old(compositorId)).Panic? ==>
        o == Panic(CompositorTarget(old(layerCtx), old(compositorId)).reason) && State() == old(State())
      ensures old(presenting) && CompositorTarget(old(layerCtx), old(compositorId)).Success? ==>
        o == Success(true) &&
        State() == old(State()).(
          sentToCompositor := old(sentToCompositor) +
            [WebVR(old(layerCtx).value,
                   VRCompositorCommand.SubmitFrame(old(compositorId).value, old(layer).leftBounds, old(layer).rightBounds))])
    {
      if !presenting {
        return Success(false);
      }
      var target := CompositorTarget(layerCtx, compositorId);
      if target.Panic? {
        return Panic(target.reason);
      }
      var (ctx, id) := target.value;
      sentToCompositor := sentToCompositor +
        [WebVR(ctx, VRCompositorCommand.SubmitFrame(id, layer.leftBounds, layer.rightBounds))];
      return Success(true);
    }

    /** Applies a device event: every kind but Disconnect replaces the
        descriptor whole, Disconnect only clears its connected flag,
        PresentChange also sets the presenting flag, and only Activate,
        Deactivate, Blur, Focus and PresentChange are forwarded to script. */
    method HandleWebVREvent(e: DisplayEvent)
      requires Valid()
      modifies this
      ensures Valid()
      ensures old(HasTarget()) && !(e.PresentChange? && e.presenting) ==> HasTarget()
      ensures e.Connect? || e.Change? ==> State() == old(State()).(display := e.display)
      ensures e.Disconnect? ==> State() == old(State()).(display := old(display).(connected := false))
      ensures e.Activate? || e.Deactivate? || e.Blur? || e.Focus? ==>
        State() == old(State()).(display := e.display, firedEvents := old(firedEvents) + [e])
      ensures e.PresentChange? ==>
        State() == old(State()).(display := e.display, presenting := e.presenting,
                                 firedEvents := old(firedEvents) + [e])
    {
      match e {
        case Connect(d) =>
          display := d;
        case Disconnect(_) =>
          display := display.(connected := false);
        case Activate(d, _) =>
          display := d;
          firedEvents := firedEvents + [e];
        case Deactivate(d, _) =>
          display := d;
          firedEvents := firedEvents + [e];
        case Blur(d) =>
          display := d;
          firedEvents := firedEvents + [e];
        case Focus(d) =>
          display := d;
          firedEvents := firedEvents + [e];
        case PresentChange(d, isPresenting) =>
          display := d;
          presenting := isPresenting;
          firedEvents := firedEvents + [e];
        case Change(d) =>
          display := d;
      }
    }

    /** Runs the pending frame callbacks: the registry is swapped for an empty
        one, then the taken batch is drained with the timer reading `now`. */
    method NotifyRaf(now: Float64) returns (calls: seq<Invocation>)
      requires Valid()
      modifies this
      ensures Valid()
      ensures calls == Invocations(old(rafCallbackList), now)
      ensures State() == old(State()).(rafCallbackList := [], drainedBelow := old(nextRafId))
    {
      var callbacks := rafCallbackList;
      rafCallbackList := [];
      drainedBelow := nextRafId;
      calls := DrainBatch(callbacks, now);
    }

    /** The frame-synchronization thread's first step: create the compositor
        session through the renderer it captured. */
    method StartFrameSync()
      requires Valid() && rafThread.Some? && rafThread.value.phase == Spawned
      modifies this
      ensures Valid()
      ensures State() == old(State()).(
        sentToCompositor := old(sentToCompositor) +
          [WebVR(old(rafThread).value.renderer, Create(old(rafThread).value.compositorId))],
        rafThread := Some(old(rafThread).value.(phase := Syncing)))
    {
      var t := rafThread.value;
      sentToCompositor := sentToCompositor + [WebVR(t.renderer, Create(t.compositorId))];
      rafThread := Some(t.(phase := Syncing));
    }

    /** One round of the frame-synchronization loop: ask the compositor,
        through the captured renderer, to sync poses; a failed sync ends the
        thread without running callbacks, a successful one drains the registry
        once. */
    method FrameSyncStep(synced: Result<()>, now: Float64) returns (running: bool, calls: seq<Invocation>)
      requires Valid() && rafThread.Some? && rafThread.value.phase == Syncing
      modifies this
      ensures Valid()
      ensures running == synced.Ok?
      ensures synced.Err? ==>
        calls == [] &&
        State() == old(State()).(
          sentToCompositor := old(sentToCompositor) +
            [WebVR(old(rafThread).value.renderer, SyncPoses(old(rafThread).value.compositorId))],
          rafThread := Some(old(rafThread).value.(phase := Ended)))
      ensures synced.Ok? ==>
        calls == Invocations(old(rafCallbackList), now) &&
        State() == old(State()).(
          sentToCompositor := old(sentToCompositor) +
            [WebVR(old(rafThread).value.renderer, SyncPoses(old(rafThread).value.compositorId))],
          rafCallbackList := [],
          drainedBelow := old(nextRafId))
    {
      var t := rafThread.value;
      sentToCompositor := sentToCompositor + [WebVR(t.renderer, SyncPoses(t.compositorId))];
      if synced.Err? {
        rafThread := Some(t.(phase := Ended));
        return false, [];
      }
      calls := NotifyRaf(now);
      running := true;
    }
  }
}
