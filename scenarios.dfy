/** Concrete sessions driven through short call sequences, showing what the
    session's contracts imply for the situations a client runs into. */
module Scenarios {
  import opened WebVRTypes
  import opened Layer
  import opened RafRegistry
  import opened VRDisplaySession

  const CANVAS := ContextId(7)
  const COMPOSITOR := DeviceType(3)
  /** The bit pattern of 1.0f. */
  const ONE := Float32(0x3F80_0000)
  const LEFT: Bounds4 := [Float32(0), Float32(0), Float32(0x3F00_0000), ONE]
  const RIGHT: Bounds4 := [Float32(0x3F00_0000), Float32(0), Float32(0x3F00_0000), ONE]

  function Headset(canPresent: bool): DisplayData {
    DisplayData(1, "headset", true, Capabilities(true, true, true, canPresent), 0)
  }

  function CanvasLayer(): LayerInit {
    LayerInit(Some(CANVAS), Some(LEFT), Some(RIGHT))
  }

  /** A display whose capabilities say it cannot present rejects with the
      capability message, stays idle and sends no request. */
  method CannotPresent() returns (p: Promise, presenting: bool, requests: nat)
    ensures p == Rejected(CAN_PRESENT_FALSE_MSG) && !presenting && requests == 0
  {
    var s := new VRDisplay(Headset(false));
    p := s.RequestPresent([CanvasLayer()], Some(Ok(COMPOSITOR)));
    presenting, requests := s.presenting, |s.sentToWebVR|;
  }

  /** Two layers are rejected with the layer-count message before any request
      is sent, even though the device would have granted presentation. */
  method TwoLayers() returns (p: Promise, presenting: bool, requests: nat)
    ensures p == Rejected(LAYER_COUNT_MSG) && !presenting && requests == 0
  {
    var s := new VRDisplay(Headset(true));
    p := s.RequestPresent([CanvasLayer(), CanvasLayer()], Some(Ok(COMPOSITOR)));
    presenting, requests := s.presenting, |s.sentToWebVR|;
  }

  /** Left bounds of three values are not rejected: the copy reads index 3
      of a three-element vector and aborts, leaving the session as it was. */
  method ThreeLeftBounds() returns (p: Promise, presenting: bool, requests: nat)
    ensures p == Panicked(IndexOutOfBounds(3, 3)) && !presenting && requests == 0
  {
    var s := new VRDisplay(Headset(true));
    var l := LayerInit(Some(CANVAS), Some([ONE, ONE, ONE]), None);
    p := s.RequestPresent([l], Some(Ok(COMPOSITOR)));
    presenting, requests := s.presenting, |s.sentToWebVR|;
  }

  /** After a granted presentation, submitting a frame sends exactly one
      command, carrying the stored bounds and the compositor identifier. */
  method SubmitWhilePresenting() returns (o: Outcome<bool>, commands: seq<CanvasMsg>)
    ensures o == Success(true)
    ensures commands == [WebVR(CANVAS, VRCompositorCommand.SubmitFrame(COMPOSITOR, LEFT, RIGHT))]
  {
    var s := new VRDisplay(Headset(true));
    var p := s.RequestPresent([CanvasLayer()], Some(Ok(COMPOSITOR)));
    o := s.SubmitFrame();
    commands := s.sentToCompositor;
  }

  /** Repeating requestPresent while presenting replaces the layer and resolves
      without a second request, whatever the device would have replied. */
  method RepeatPresent() returns (p: Promise, requests: nat, id: Option<DeviceType>, stored: LayerData)
    ensures p == Resolved && requests == 1 && id == Some(COMPOSITOR)
    ensures stored == LayerData(RIGHT, LEFT)
  {
    var s := new VRDisplay(Headset(true));
    p := s.RequestPresent([CanvasLayer()], Some(Ok(COMPOSITOR)));
    p := s.RequestPresent([LayerInit(Some(CANVAS), Some(RIGHT), Some(LEFT))], Some(Err("busy")));
    requests, id, stored := |s.sentToWebVR|, s.compositorId, s.layer;
  }

  /** A failed refresh keeps the frame data of the last successful one and
      still reports success. */
  method StaleFrameData() returns (ok: bool, data: FrameData)
    ensures ok && data == FrameData(42)
  {
    var s := new VRDisplay(Headset(true));
    ok, data := s.GetFrameData(Some(Ok(FrameData(42))));
    ok, data := s.GetFrameData(Some(Err("disconnected")));
  }

  /** The drain of the batch left by cancelling the first of three callbacks. */
  lemma DrainAfterCancel(now: Float64)
    ensures Invocations([Entry(1, None), Entry(2, Some(Callback(20))), Entry(3, Some(Callback(30)))], now)
         == [Invocation(Callback(20), now), Invocation(Callback(30), now)]
  {
    var e1, e2, e3 := Entry(1, None), Entry(2, Some(Callback(20))), Entry(3, Some(Callback(30)));
    assert [e1, e2, e3][..2] == [e1, e2];
    assert [e1, e2][..1] == [e1];
    assert [e1][..0] == [];
  }

  /** The drain of a registry holding one callback. */
  lemma DrainSingle(cb: Callback, now: Float64)
    ensures Invocations([Entry(1, Some(cb))], now) == [Invocation(cb, now)]
  {
    assert [Entry(1, Some(cb))][..0] == [];
  }

  /** A fresh session on a presenting-capable display after a granted
      requestPresent. */
  method PresentingSession() returns (s: VRDisplay)
    ensures fresh(s) && s.Valid() && s.HasTarget()
    ensures s.presenting && s.nextRafId == 1 && s.rafCallbackList == []
    ensures s.rafThread == Some(RafThread(CANVAS, COMPOSITOR, Spawned)) && s.sentToCompositor == []
  {
    s := new VRDisplay(Headset(true));
    var p := s.RequestPresent([CanvasLayer()], Some(Ok(COMPOSITOR)));
  }

  /** A presenting session with three callbacks registered, under the
      handles it returned. */
  method ThreePending() returns (s: VRDisplay, handles: seq<nat>)
    ensures fresh(s) && s.Valid() && s.presenting
    ensures handles == [1, 2, 3]
    ensures s.rafCallbackList ==
      [Entry(1, Some(Callback(10))), Entry(2, Some(Callback(20))), Entry(3, Some(Callback(30)))]
  {
    s := PresentingSession();
    var h1 := s.RequestAnimationFrame(Callback(10), 0);
    var h2 := s.RequestAnimationFrame(Callback(20), 0);
    var h3 := s.RequestAnimationFrame(Callback(30), 0);
    handles := [h1, h2, h3];
  }

  /** Handles are issued 1, 2, 3; a handle cancelled before the drain does not
      run, the others run in registration order with the same timestamp, and
      cancelling after the drain changes nothing. */
  method CancelBeforeDrain(now: Float64)
    returns (handles: seq<nat>, calls: seq<Invocation>, after: seq<Entry>)
    ensures handles == [1, 2, 3]
    ensures calls == [Invocation(Callback(20), now), Invocation(Callback(30), now)]
    ensures after == []
  {
    var s;
    s, handles := ThreePending();
    assert FirstWithHandle(s.rafCallbackList, 1) == Some(0);
    s.CancelAnimationFrame(1);
    assert s.rafCallbackList == [Entry(1, None), Entry(2, Some(Callback(20))), Entry(3, Some(Callback(30)))];
    calls := s.NotifyRaf(now);
    DrainAfterCancel(now);
    s.CancelAnimationFrame(1);
    after := s.rafCallbackList;
  }

  /** A presenting session whose thread has created the compositor session,
      with one callback pending. */
  method SyncingSession() returns (s: VRDisplay)
    ensures fresh(s) && s.Valid()
    ensures s.rafThread == Some(RafThread(CANVAS, COMPOSITOR, Syncing))
    ensures s.sentToCompositor == [WebVR(CANVAS, Create(COMPOSITOR))]
    ensures s.rafCallbackList == [Entry(1, Some(Callback(10)))]
  {
    s := PresentingSession();
    var h := s.RequestAnimationFrame(Callback(10), 0);
    s.StartFrameSync();
  }

  /** The thread spawned by a granted presentation creates the compositor
      session and syncs poses through the renderer and identifier it
      captured; a successful sync runs the pending callback, a failed one
      ends the thread. */
  method FrameSyncRounds(now: Float64) returns (commands: seq<CanvasMsg>, calls: seq<Invocation>, phase: ThreadPhase)
    ensures commands == [WebVR(CANVAS, Create(COMPOSITOR)), WebVR(CANVAS, SyncPoses(COMPOSITOR)),
                         WebVR(CANVAS, SyncPoses(COMPOSITOR))]
    ensures calls == [Invocation(Callback(10), now)]
    ensures phase == Ended
  {
    var s := SyncingSession();
    var running, drained := s.FrameSyncStep(Ok(()), now);
    DrainSingle(Callback(10), now);
    calls := drained;
    running, drained := s.FrameSyncStep(Err("released"), now);
    commands, phase := s.sentToCompositor, s.rafThread.value.phase;
  }

  /** exitPresent on an idle session rejects and it stays idle. */
  method ExitWhileIdle() returns (p: Promise, presenting: bool, requests: nat)
    ensures p == Rejected(NOT_PRESENTING_MSG) && !presenting && requests == 0
  {
    var s := new VRDisplay(Headset(true));
    p := s.ExitPresent(Some(Ok(())));
    presenting, requests := s.presenting, |s.sentToWebVR|;
  }

  /** A granted exit stops presenting and releases the compositor session once;
      the compositor identifier stays recorded. */
  method PresentThenExit() returns (p: Promise, presenting: bool, id: Option<DeviceType>, commands: seq<CanvasMsg>)
    ensures p == Resolved && !presenting && id == Some(COMPOSITOR)
    ensures commands == [WebVR(CANVAS, Release(COMPOSITOR))]
  {
    var s := new VRDisplay(Headset(true));
    p := s.RequestPresent([CanvasLayer()], Some(Ok(COMPOSITOR)));
    p := s.ExitPresent(Some(Ok(())));
    presenting, id, commands := s.presenting, s.compositorId, s.sentToCompositor;
  }

  /** A present-change event can make a session present without a compositor
      identifier or layer context; submitting a frame then aborts on the
      missing layer context. */
  method PresentChangeThenSubmit() returns (presenting: bool, id: Option<DeviceType>, o: Outcome<bool>)
    ensures presenting && id.None?
    ensures o == Panic(UnwrapNone("layer_ctx"))
  {
    var s := new VRDisplay(Headset(true));
    s.HandleWebVREvent(PresentChange(Headset(true), true));
    presenting, id := s.presenting, s.compositorId;
    o := s.SubmitFrame();
  }
}
