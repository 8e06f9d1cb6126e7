# WebVR display session (Servo `VRDisplay`)

This project models and verifies the per-display presentation session of Servo's WebVR
implementation, `components/script/dom/vrdisplay.rs`. A `VRDisplay` is the script-side
object for one VR device in one page. It holds the device descriptor, the depth range, the
presenting flag, the current layer and its WebGL context, the compositor identifier the
device granted, the cached frame data, the next animation-frame handle, and the registry
of animation-frame callbacks. Script and the WebVR thread drive it. These operations are
modelled:

- `requestPresent`, `exitPresent` and `submitFrame`, as the WebVR 1.1 draft
  describes them (`#dom-vrdisplay-requestpresent`, `#dom-vrdisplay-exitpresent`,
  `#dom-vrdisplay-submitframe`);
- validation of the single layer (`validate_layer`) and of its bounds arrays (`parse_bounds`);
- the callback registry: `requestAnimationFrame`, `cancelAnimationFrame` and the drain
  `notify_raf`;
- `getFrameData`, `resetPose`, the depth setters, and device events (`handle_webvr_event`);
- one start step and one round of the frame-synchronization loop.

The model is imperative, like the code. `VRDisplaySession.VRDisplay` is a class whose fields
are the session's fields. Its methods update them and state the whole new state through the
snapshot `State()`. The outside world is modelled like this:

- **WebVR thread replies.** Each reply is an input of type `Option<Result<T>>`. `None` means
  the window has no WebVR thread. The reply is read only when the code actually sends the
  request.
- **Outbound traffic.** Requests to the WebVR thread, compositor commands and DOM
  notifications are appended to the logs `sentToWebVR`, `sentToCompositor` and
  `firedEvents`.
- **Promises.** A promise becomes a returned `Promise` value: `Resolved`, `Rejected(reason)`
  or `Panicked(reason)`.
- **Callbacks.** Callbacks are opaque ids. A drain returns the calls it makes, each with its
  timestamp.
- **Aborts.** A Rust panic (an out-of-range index, an `unwrap` of `None`) is an explicit
  `Panic` outcome. The state is left as it was at the point of the panic.

Files:

- `webvr_types.dfy`: the value types and message shapes. `WebVRResult<T>` from
  `components/vr_traits/webvr_traits.rs` becomes `Result<T>`.
- `layer.dfy`: bounds parsing and layer validation.
- `raf_registry.dfy`: the callback registry as sequences, with its lemmas.
- `vr_display.dfy`: the session class.
- `scenarios.dfy`: short concrete call sequences on a fresh session.

### Where the code departs from its own comments and from the state it keeps

The model follows the code in each of these cases.

- **Bounds of one to three values.** The comment at vrdisplay.rs:477-478 says such bounds
  are rejected. `parse_bounds` (vrdisplay.rs:479-495) rejects only more than four values.
  With one to three values, its loop `for i in 0..4` reads `values[i]` past the end. It
  panics at index `len`, after overwriting the first `len` slots. The model returns
  `Panic(IndexOutOfBounds(len, len))` and never a rejection here (`Layer.ParsedBounds`,
  `Scenarios.ThreeLeftBounds`).
- **Exit keeps the compositor identifier.** `stop_present` (vrdisplay.rs:441-447) clears
  `presenting` but leaves `compositor_id` set. After an exit, `presenting` is false while
  `compositor_id` is still `Some` (`Scenarios.PresentThenExit`).
- **Events can set `presenting` without a target.** `handle_webvr_event` (vrdisplay.rs:387-390)
  sets `presenting` from a `PresentChange` event. It sets neither `compositor_id` nor
  `layer_ctx`. After that:
  - `SubmitFrame` aborts on the `unwrap` at vrdisplay.rs:350 (`Scenarios.PresentChangeThenSubmit`).
  - `ExitPresent` aborts in `stop_present` (vrdisplay.rs:443), but only on an `Ok` reply. With
    no WebVR thread, or on an `Err` reply, it rejects.

  Every public operation except this event keeps "presenting implies a compositor
  identifier and a layer context" (`VRDisplay.HasTarget`). The private `init_present` also
  sets `presenting` before it unwraps `layer_ctx` (vrdisplay.rs:407-410). Called without a
  context, it aborts with `presenting` set and no target. Its one caller sets the context
  first (vrdisplay.rs:292-294).
- **Which events reach script.** `Connect`, `Disconnect` and `Change` update the descriptor
  without notifying script (vrdisplay.rs:372-397). `Disconnect` changes only the
  `connected` flag, not the whole descriptor.

## Model

| member | source | states |
|---|---|---|
| `Layer.ParsedBounds` | components/script/dom/vrdisplay.rs:479-495 | parsing one bounds source succeeds iff it is absent, empty, or has exactly four values. It fails with the length message iff it has more than four, and aborts at index `len` iff it has one to three. On success the rectangle keeps its previous values, or takes the four given ones. |
| `Layer.ParseBounds` | components/script/dom/vrdisplay.rs:479-495 | the in-place copy into the four-slot buffer. Absent, empty and too-long sources leave the buffer untouched. Four values replace it. One to three values abort after overwriting exactly the first `len` slots. The outcome agrees with the "0 or 4" rule. |
| `Layer.LayerCheck` | components/script/dom/vrdisplay.rs:497-507 | no WebGL context gives the context error. Otherwise the result is success iff both bounds are acceptable; the stored layer is then the default layer with each four-value bounds copied in. With a context, every error is the bounds-length message, and it aborts iff the left bounds are short, or the left are acceptable and the right are short. |
| `Layer.ValidateLayer` | components/script/dom/vrdisplay.rs:497-507 | allocating default buffers and parsing left then right bounds into them yields exactly `LayerCheck`. |
| `RafRegistry.LiveIndices` | components/script/dom/vrdisplay.rs:453-457 | the positions that still hold a callback: each holds one, they strictly increase, and every position holding a callback is among them. |
| `RafRegistry.Invocations` | components/script/dom/vrdisplay.rs:449-458 | a drain makes one call per live entry, in registration order, with that entry's callback, and every call gets the same timestamp. |
| `RafRegistry.FirstWithHandle` | components/script/dom/vrdisplay.rs:234 | the position found is the first entry whose handle is `h`; `None` means no entry has handle `h`. |
| `RafRegistry.FindHandle` | components/script/dom/vrdisplay.rs:233-236 | the front-to-back scan of `iter_mut().find` returns exactly the first entry with the handle, or none. |
| `RafRegistry.DrainBatch` | components/script/dom/vrdisplay.rs:453-457 | the `for` loop over the taken batch makes exactly `Invocations(batch, now)`. |
| `RafRegistry.InvocationsAppend` | components/script/dom/vrdisplay.rs:449-458 | draining a concatenation makes the calls of each part, in order. |
| `RafRegistry.RegisterKeepsWellFormed` | components/script/dom/vrdisplay.rs:217-225 | appending under the next handle keeps the handles at least 1, below the following handle, and strictly increasing. |
| `RafRegistry.RegisterRunsLast` | components/script/dom/vrdisplay.rs:224 | a newly pushed callback runs after every call already registered. |
| `RafRegistry.HandleIsUnique` | components/script/dom/vrdisplay.rs:219-220 | in a well-formed registry, looking up the handle of entry `i` finds entry `i`. |
| `RafRegistry.InvocationsAround` | components/script/dom/vrdisplay.rs:449-458 | a drain makes the calls of the entries before a position, then of that entry, then of the entries after it. |
| `RafRegistry.CancelEntry` | components/script/dom/vrdisplay.rs:234-236 | the in-place clear: length and every handle are kept. The first entry with the handle loses its callback and every other entry is unchanged. An unknown handle changes nothing. |
| `RafRegistry.ClearedEntryIsSkipped` | components/script/dom/vrdisplay.rs:235 | clearing the callback at one position drops exactly that entry's call from the next drain: the calls before it, then the calls after it. |
| `RafRegistry.CancelSkipsEntry` | components/script/dom/vrdisplay.rs:231-236 | after cancelling a present handle, the next drain makes exactly the calls before and after that entry. It is the only call dropped. |
| `RafRegistry.CancelDrainedHandle` | components/script/dom/vrdisplay.rs:231-236 | a handle below every handle the registry holds is not found, so cancelling it leaves the registry unchanged. A handle whose batch was already drained is such a handle. |
| `RafRegistry.CancelIdempotent` | components/script/dom/vrdisplay.rs:231-236 | cancelling keeps the registry well formed, and cancelling the same handle twice equals cancelling it once. |
| `VRDisplaySession.PresentChecks` | components/script/dom/vrdisplay.rs:247-273 | the checks made before any request, in order: cannot present gives the capability message; otherwise a layer count other than 1 gives the count message; otherwise the outcome is exactly the layer check's, with its message, stored layer or abort. Success iff all three pass. |
| `VRDisplaySession.CompositorTarget` | components/script/dom/vrdisplay.rs:350-351 | the unwraps before a compositor command, in order: no layer context aborts on `layer_ctx`; a context without an identifier aborts on `compositor_id`; with both, the pair is returned. The same pair is unwrapped in `stop_present` (vrdisplay.rs:443-444). |
| `VRDisplaySession.VRDisplay.constructor` | components/script/dom/vrdisplay.rs:94-118 | a new session is idle, with depth range 0.01 / 10000.0, default frame data and layer, no layer context, no compositor identifier, next handle 1, an empty registry, no traffic and no frame-synchronization thread. |
| `VRDisplaySession.VRDisplay.GetFrameData` | components/script/dom/vrdisplay.rs:166-187 | always returns true and the cached data. With a WebVR thread, exactly one request is logged, carrying the display id and depth range. An `Ok` reply replaces the frame data whole; an `Err` keeps it. Nothing else changes. |
| `VRDisplaySession.VRDisplay.ResetPose` | components/script/dom/vrdisplay.rs:193-199 | with a WebVR thread, one reset request is logged; otherwise nothing changes. |
| `VRDisplaySession.VRDisplay.SetDepthNear` | components/script/dom/vrdisplay.rs:205-207 | only the near depth changes. |
| `VRDisplaySession.VRDisplay.SetDepthFar` | components/script/dom/vrdisplay.rs:213-215 | only the far depth changes. |
| `VRDisplaySession.VRDisplay.RequestAnimationFrame` | components/script/dom/vrdisplay.rs:217-229 | while presenting: returns the current next handle, increments it by exactly one, and appends `(handle, Some(cb))` at the end; nothing else changes. When idle: returns the window's handle and changes nothing. The registry invariant is kept. |
| `VRDisplaySession.VRDisplay.CancelAnimationFrame` | components/script/dom/vrdisplay.rs:231-240 | while presenting, only the registry changes: the first entry with the handle loses its callback, and an unknown handle changes nothing. When idle, nothing changes. A handle issued before the last drain changes nothing in either case. The session invariant says the registry holds no such handle. |
| `VRDisplaySession.VRDisplay.RequestPresent` | components/script/dom/vrdisplay.rs:243-307 | a failed pre-check rejects with its message or aborts, with no state change and no request. While presenting: resolves, replaces only the layer and its context, and sends nothing. From idle with no WebVR thread: rejects "Not available" with no change. An `Err` reply rejects and only logs the request. An `Ok(id)` reply resolves, with the layer stored, presenting set, the compositor identifier `id`, and a frame-synchronization thread spawned on the layer's renderer and `id`. |
| `VRDisplaySession.VRDisplay.InitPresent` | components/script/dom/vrdisplay.rs:406-414 | sets presenting and the compositor identifier `id`. With a layer context, it spawns the thread that captures that context's renderer and `id`, and presenting then implies a target. Without one, it aborts on `layer_ctx` after setting both fields and spawns nothing. |
| `VRDisplaySession.VRDisplay.StopPresent` | components/script/dom/vrdisplay.rs:441-447 | clears presenting and keeps the compositor identifier. With a layer context and an identifier, sends exactly one `Release(id)` through that context; otherwise aborts on the first missing one. |
| `VRDisplaySession.VRDisplay.ExitPresent` | components/script/dom/vrdisplay.rs:310-342 | when idle, rejects with no change. With no WebVR thread, rejects with no change. An `Err` reply rejects, stays presenting and only logs the request. An `Ok` reply stops presenting and emits one `Release`, leaving the identifier set; only here can it abort, on a missing layer context or identifier. It cannot abort while presenting implies a target. |
| `VRDisplaySession.VRDisplay.SubmitFrame` | components/script/dom/vrdisplay.rs:344-355 | when idle, does nothing. While presenting with a target, sends exactly one `SubmitFrame` carrying the stored bounds and the compositor identifier. Otherwise it aborts without change. |
| `VRDisplaySession.VRDisplay.HandleWebVREvent` | components/script/dom/vrdisplay.rs:372-398 | Connect and Change replace the descriptor silently. Disconnect clears only `connected`. Activate, Deactivate, Blur and Focus replace the descriptor and notify script. PresentChange also sets presenting, leaving the compositor identifier alone. Only a PresentChange to true can break "presenting implies a target". |
| `VRDisplaySession.VRDisplay.NotifyRaf` | components/script/dom/vrdisplay.rs:449-458 | the registry becomes empty, and every handle issued so far counts as drained; nothing else changes. The calls made are exactly `Invocations` of the registry it held: each live callback once, in order, with one timestamp. |
| `VRDisplaySession.VRDisplay.StartFrameSync` | components/script/dom/vrdisplay.rs:409-418 | the spawned thread's first act sends one `Create` through the renderer and with the identifier it captured at spawn time, and then it starts looping. |
| `VRDisplaySession.VRDisplay.FrameSyncStep` | components/script/dom/vrdisplay.rs:419-437 | one round sends `SyncPoses` through the captured renderer, with the captured identifier. A failed sync ends the thread with no callbacks run. A successful one keeps it running and drains the registry once. |
| `Scenarios.CannotPresent` | components/script/dom/vrdisplay.rs:247-252 | a display that cannot present rejects with "VRDisplay canPresent is false", stays idle and sends no request. |
| `Scenarios.TwoLayers` | components/script/dom/vrdisplay.rs:258-262 | two layers reject with "The number of layers must be 1", with zero requests. |
| `Scenarios.ThreeLeftBounds` | components/script/dom/vrdisplay.rs:485-490 | three left values abort at index 3 instead of rejecting; the session stays idle and sends nothing. |
| `Scenarios.SubmitWhilePresenting` | components/script/dom/vrdisplay.rs:344-355 | after a granted presentation, exactly one SubmitFrame command is sent, with the stored bounds and the identifier. |
| `Scenarios.RepeatPresent` | components/script/dom/vrdisplay.rs:275-281 | a second requestPresent while presenting resolves, replaces the layer, sends no second request and keeps the identifier. |
| `Scenarios.StaleFrameData` | components/script/dom/vrdisplay.rs:175-186 | a failed refresh keeps the data of the earlier successful one and still returns true. |
| `Scenarios.PresentingSession` | components/script/dom/vrdisplay.rs:243-307 | a granted requestPresent on a fresh capable display leaves it presenting with a compositor target, an empty registry, handle 1 next, no compositor command yet, and a freshly spawned thread on the canvas's renderer. |
| `Scenarios.ThreePending` | components/script/dom/vrdisplay.rs:217-225 | three registrations while presenting return handles 1, 2, 3 and leave the three callbacks in the registry in that order. |
| `Scenarios.CancelBeforeDrain` | components/script/dom/vrdisplay.rs:217-236 | handles come out as 1, 2, 3. The cancelled first callback does not run; the other two run in order with one timestamp. A cancel after the drain leaves the registry empty. |
| `Scenarios.SyncingSession` | components/script/dom/vrdisplay.rs:414-418 | after a granted presentation, one registered callback and the thread's first step, the thread is looping on the canvas's renderer and has sent only `Create` with the granted identifier. |
| `Scenarios.FrameSyncRounds` | components/script/dom/vrdisplay.rs:414-437 | the thread sends `Create`, then one `SyncPoses` per round, all through the canvas's renderer with the granted identifier. A successful round runs the pending callback, and a failed one ends the thread. |
| `Scenarios.ExitWhileIdle` | components/script/dom/vrdisplay.rs:313-318 | exitPresent while idle rejects with "VRDisplay is not presenting" and sends nothing. |
| `Scenarios.PresentThenExit` | components/script/dom/vrdisplay.rs:327-331 | exit after present resolves, clears presenting, sends one Release, and keeps the compositor identifier. |
| `Scenarios.PresentChangeThenSubmit` | components/script/dom/vrdisplay.rs:344-351 | after a PresentChange(true) event the session presents with no compositor identifier, and submitFrame aborts on the missing layer context. |

## Left out

- The frame-synchronization thread (vrdisplay.rs:414-438) is not modelled as a thread. `rafThread` records what it captured and where it is, and `StartFrameSync` and `FrameSyncStep` are its steps, called by the model's user in that order. Only the most recently spawned thread is recorded: a second `init_present` replaces the record of the first. The blocking handshakes, the back-pressure between the loop and the control thread, and the `NotifyDisplayRAF` runnable (vrdisplay.rs:461-474) are left out because they are concurrency.
- IPC channels, `send(...).unwrap()`, `recv().unwrap()` and promise plumbing: these are foreign calls. Replies are inputs, and promises are the returned `Promise`. Channel failure (a panic on `unwrap` of send or receive) is not modelled.
- WebGL context acquisition is a foreign call. `LayerInit.context` is its result. `ipc_renderer()` is represented by the context each compositor command is sent through.
- While idle, `requestAnimationFrame` and `cancelAnimationFrame` delegate to the window's scheduler, which is outside this model. RAF returns the window's handle, passed in as `windowHandle`; cancel leaves the session unchanged.
- `notify_event` builds and fires a DOM event; the model only logs the event in `firedEvents`.
- Floating point is not modelled: depth values, bounds values and the `Performance().Now()` timestamp are opaque bit patterns. The timestamp is a parameter.
- Callbacks are opaque ids and their bodies are not run. So exceptions raised by a callback (reported, not propagated) are not modelled, and neither are registrations made from inside a drain. Those would land in the fresh, empty registry.
- Read-only accessors are trivial reads of fields or wrapper objects, so they are not modelled: `IsConnected`, `IsPresenting`, `Capabilities`, `GetStageParameters`, `GetEyeParameters`, `DisplayId` (a `u64` to `u32` truncation), `DisplayName`, `GetPose`, `DepthNear`, `DepthFar`, `get_display_id`.
- The pipeline id in requests and `VRDeviceType::as_u32()` are not modelled. The compositor identifier is kept as the device type itself.
- `webvr::VRLayer::default()` and `webvr::VRFrameData::default()` belong to the device library, which is not part of this model. `DEFAULT_LAYER` and `DEFAULT_FRAME_DATA` stand for them with placeholder values, and no property depends on those values.
- What becomes of the script thread after a panic is not modelled. Each operation stops with a `Panic` outcome, and the state is as it was at that point.
- `components/script/dom/vrframedata.rs`, `components/script/dom/vreyeparameters.rs`, `components/vr_traits/lib.rs` and `components/vr/lib.rs` are not part of this model: they are typed-array marshalling, getter wrappers and crate declarations. The WebVR service thread itself is not part of this model.
- VRDisplaySession.VRDisplay.RequestAnimationFrame: does not model the `u32` wrap-around of `next_raf_id + 1`, because handles are unbounded naturals here.
- Logging is not modelled: the `error!` on a failed frame-data refresh (vrdisplay.rs:180) and the `warn!` when `submitFrame` is called while idle (vrdisplay.rs:346) have no effect on the session.
