# Hand-gesture particle controller: session manager and particle engine

This project models the two pieces of logic in a small React/three.js app.
The app streams webcam frames to a live multimodal model session. The model
answers with `setHandGesture` tool calls, and those calls drive a
3000-particle heart or firework field.

- **Tool dispatch** (`ToolDispatch.dfy`): the inbound message and function-call
  shapes, the events the service makes observable, and gesture decoding. It
  also defines what one message makes the service emit. The `for` loop emits
  the gesture notifications of the answered calls as it runs. Each
  acknowledgement is only queued with `sessionPromise?.then`, and the queued
  callbacks send them after the handler returns. So one message emits all its
  notifications first, then all its acknowledgements, both in list order.
- **Live session manager** (`GeminiLiveService.dfy`): the class `LiveService`.
  Its fields are the session promise and the frame-timer handle. Ghost fields
  hold the trace of emitted events and the acknowledgements queued during the
  current handler. Ghost registries name every session `connect` asked for
  (`registered`), the sessions the library holds open (`live`) and the timers
  the browser keeps firing. There is one method per entry point or callback:
  connect, a failed connect, onopen, onmessage (the per-call `for` loop),
  onclose, onerror, disconnect, startVideoStream, stopVideoStream, and the
  completion of one frame's encoding. Every `connect` builds its own
  closures, so the close, error and failed-connect callbacks name the session
  they belong to; `onopen` and `onmessage` do not, because what they do does
  not depend on it. `Valid()` says the held promise names an open session unless
  it was rejected, and exactly the held timer is firing. `NoLeak()` says the
  library holds open exactly the held session. Connect, disconnect, a failed
  connect, and the close or error of the held session keep `NoLeak()`. A late
  close or error of an older session does not (see "## Findings").
- **Shape generator** (`ShapeGenerator.dfy`): the heart and sphere point
  formulas and the hue choice. It also holds the generation loop, which fills
  two `array<real>` buffers of `3 * COUNT` entries in place. `Math.sin`,
  `Math.cos`, `Math.acos`, `Math.random` and `setHSL` are parameters.
- **Scale dynamics** (`ScaleDynamics.dfy`): the gesture's target scale and
  THREE's lerp. It proves how the scale behaves one frame at a time and while
  a gesture is held.
- **Particle engine** (`ParticleEngine.dfy`): the class `ParticleField`. It
  holds the three buffers and the animation refs, with the mount, the
  shape-change rebuild and one `useFrame` callback. The callback's per-vertex
  loop is the method `Render`.

Numbers are reals. The random source is a function from draw index to value,
so particle `i` of a heart uses draws `4i .. 4i+3` and particle `i` of a
firework uses draws `3i .. 3i+2`. Each library callback is modelled as one
atomic method call.

Behaviour of the code that the model keeps as written:

- The lerp factor is `delta * 5`, and THREE's `MathUtils.lerp` does not clamp
  its factor. A frame longer than 0.2 s therefore carries the scale past the
  target (`ScaleDynamics.LerpOvershoots`).
- An acknowledgement reaches a session only if a handle is held when its call
  is decoded, and only if that promise does not reject. It is sent after the
  whole loop, on the session held at decoding time.
- A `setHandGesture` call without an arguments object throws on reading
  `.gesture`. The rest of that message's calls are never reached.
- A rejected connect promise stays in the handle until an `onclose` or
  `onerror` callback, of any session, clears it. Until then every later
  `connect` returns at once, and every `disconnect` throws at its `await`
  before the teardown (`GeminiLiveService.FailedConnectBlocks`).

## Model

| member | source | states |
|---|---|---|
| ToolDispatch.DecodeGesture | services/geminiLiveService.ts:57-58 | The gesture is OPEN exactly when the argument is the string "OPEN"; anything else, including an absent value, is CLOSED; UNKNOWN is never produced |
| ToolDispatch.Handled | services/geminiLiveService.ts:55-57 | The loop gets through a prefix of the calls; no call in it throws, and the call right after it (if any) is a `setHandGesture` call without arguments |
| ToolDispatch.Notified | services/geminiLiveService.ts:55-59 | The loop makes one notification per answered call, each a gesture change to OPEN or CLOSED |
| ToolDispatch.Acknowledged | services/geminiLiveService.ts:62-70 | With a session the queued callbacks reach, one response per answered call, each a tool response on that session named "setHandGesture" with result "ok"; with none, nothing |
| ToolDispatch.Calls | services/geminiLiveService.ts:54-55 | The calls of a message are exactly its `toolCall.functionCalls` when both are present; an absent `toolCall` or list yields no call |
| ToolDispatch.MessageEvents | services/geminiLiveService.ts:53-72 | One message emits one event per answered call, plus one more per answered call when a session is reachable |
| ToolDispatch.AnsweredCallsArePresent | services/geminiLiveService.ts:56-57 | Every answered call is a `setHandGesture` call whose arguments object exists |
| ToolDispatch.NotifiedInOrder | services/geminiLiveService.ts:55-59 | The k-th notification is the decoded gesture of the k-th answered call |
| ToolDispatch.AcknowledgedInOrder | services/geminiLiveService.ts:62-70 | The k-th acknowledgement answers the k-th answered call: the same id, on the reachable session |
| ToolDispatch.WellFormedMessageFullyProcessed | services/geminiLiveService.ts:55-57 | If no `setHandGesture` call lacks arguments, every call of the message is processed |
| ToolDispatch.AnsweredAreAllGestureCalls | services/geminiLiveService.ts:55-56 | Before the first throwing call, the answered calls are exactly the calls named `setHandGesture`, in list order |
| ToolDispatch.MessageProtocol | services/geminiLiveService.ts:54-72 | For a whole message, the answered calls are its `setHandGesture` calls before the first throwing one; the events are first one notification per answered call, then (with a reachable session) one acknowledgement of each answered call's id, both in list order; other calls yield nothing; GestureChange(UNKNOWN) is never emitted |
| GeminiLiveService.FrameCapture | services/geminiLiveService.ts:121-124 | A tick captures exactly when a 2D context exists and the video width is non-zero; the canvas is then half the video size in each dimension, truncated |
| GeminiLiveService.Truthy | services/geminiLiveService.ts:113 | A timer id counts as set exactly when it is non-null and non-zero |
| GeminiLiveService.Target | services/geminiLiveService.ts:62 | A callback queued on the session promise reaches a session exactly when a promise is held and it did not reject, and then it reaches the held session |
| GeminiLiveService.LiveService.constructor | services/geminiLiveService.ts:23-24 | A new service holds no session and no timer and has emitted nothing |
| GeminiLiveService.LiveService.Connect | services/geminiLiveService.ts:40-45 | With a promise held, even a rejected one, nothing changes; otherwise the new session is registered, open and held, and one connect request is emitted; no leak is introduced |
| GeminiLiveService.LiveService.OnConnectFailed | services/geminiLiveService.ts:45 | The failed session is not open; if its promise is the one held, it stays held, now rejected; otherwise the handle is unchanged |
| GeminiLiveService.LiveService.OnOpen | services/geminiLiveService.ts:48-52 | Emits status(true) and leaves exactly the new timer active |
| GeminiLiveService.LiveService.OnMessage | services/geminiLiveService.ts:53-74 | The trace grows by exactly the message's events on the session the held promise reaches: all notifications, then the acknowledgements; no handle changes |
| GeminiLiveService.LiveService.DispatchCalls | services/geminiLiveService.ts:55-72 | The loop emits the notifications of the calls it gets through and queues their acknowledgements on the held session |
| GeminiLiveService.LiveService.HandleCall | services/geminiLiveService.ts:56-71 | One iteration throws exactly for a `setHandGesture` call without arguments, doing nothing; otherwise an answered call emits its notification and queues its acknowledgement if a session is reachable |
| GeminiLiveService.LiveService.OnClose | services/geminiLiveService.ts:75-80 | Emits status(false), stops the timer and nulls the handle, whichever session closed; only session `from` stops being open; no leak follows only when `from` is the held session or none is held |
| GeminiLiveService.LiveService.OnError | services/geminiLiveService.ts:81-86 | The same teardown as onclose, with the same condition for no leak |
| GeminiLiveService.LiveService.OnCloseGuarded | services/geminiLiveService.ts:75-86 | Close or error of session `from`, torn down only when `from` is the held session and ignored otherwise; it never introduces a leak |
| GeminiLiveService.LiveService.Disconnect | services/geminiLiveService.ts:102-110 | Throws, changing nothing, exactly when the held promise was rejected; otherwise ends with no session and no timer, emits a close request of the held session if any, then status(false); no leak is introduced |
| GeminiLiveService.LiveService.StartVideoStream | services/geminiLiveService.ts:112-120 | Any running timer is cleared before the new one is installed, so exactly one timer is active |
| GeminiLiveService.LiveService.StopVideoStream | services/geminiLiveService.ts:144-149 | Afterwards no timer is active, whatever the state before, so a second call changes nothing |
| GeminiLiveService.LiveService.OnFrameEncoded | services/geminiLiveService.ts:127-135 | An encoded frame is sent as "image/jpeg" only when a blob came back and the held promise reaches a session, and then to that session; otherwise nothing is emitted |
| GeminiLiveService.LateCloseLeaks | services/geminiLiveService.ts:75-80 | Connect 1, disconnect, connect 2, the late close of 1, connect 3: sessions 2 and 3 are both open while only 3 is held |
| GeminiLiveService.LateCloseIgnored | services/geminiLiveService.ts:75-86 | The same run with the guarded close: session 2 stays held and is the only open session |
| GeminiLiveService.FailedConnectBlocks | services/geminiLiveService.ts:40-45 | After a failed connect the rejected promise stays held, a second connect is ignored, no session is open, and only the first connect request was emitted |
| ShapeGenerator.HeartPoint | components/ParticleSystem.tsx:26-37 | For a depth draw in [0, 1), the heart point's z lies in [-1.25, 1.25) |
| ShapeGenerator.SpherePoint | components/ParticleSystem.tsx:14-24 | Where `cos` undoes `acos`, the point's height is 20v - 10 |
| ShapeGenerator.SumOfSquares | components/ParticleSystem.tsx:20-22 | Supporting lemma of `SphereRadius`: two unit pairs give coordinates whose squares sum to 100 |
| ShapeGenerator.SphereRadius | components/ParticleSystem.tsx:14-24 | Where sin² + cos² = 1 at the two angles used, the sphere point lies at distance 10 from the origin |
| ShapeGenerator.HueArgument | components/ParticleSystem.tsx:50-55 | For a draw in [0, 1), the heart hue argument lies in [0.95, 1.05) and the firework hue argument in [0, 1) |
| ShapeGenerator.HeartDepth | components/ParticleSystem.tsx:32-36 | With draws in [0, 1), every heart particle's depth lies in [-1.25, 1.25) |
| ShapeGenerator.FireworkOnSphere | components/ParticleSystem.tsx:14-24 | With the identity sin² + cos² = 1, every firework particle lies on the sphere of radius 10 |
| ShapeGenerator.ColorHue | components/ParticleSystem.tsx:50-55 | With draws in [0, 1), every particle's hue argument lies in its shape's band |
| ShapeGenerator.FilledExtends | components/ParticleSystem.tsx:58-64 | Writing particle i's three coordinates and three channels at 3i, 3i+1, 3i+2 extends the filled prefix from i to i+1 particles |
| ShapeGenerator.GenerateField | components/ParticleSystem.tsx:43-67 | Two fresh, distinct buffers of 3·3000 entries; entry 3i+c holds coordinate c of particle i's point and channel c of its colour, for every i < 3000 |
| ScaleDynamics.TargetScale | components/ParticleSystem.tsx:80-84 | The target is 2.5 exactly when the gesture is OPEN, and 0.5 exactly when it is CLOSED or UNKNOWN |
| ScaleDynamics.LerpOffset | components/ParticleSystem.tsx:87 | THREE's lerp moves the scale the fraction t of the way to the target, so the offset from the target is multiplied by 1 - t; t = 0 keeps the scale and t = 1 reaches the target |
| ScaleDynamics.LerpApproaches | components/ParticleSystem.tsx:87 | For a factor t in [0, 1], one step lands between the old scale and the target; its distance to the target is (1 - t) times the old one and never grows |
| ScaleDynamics.LerpOvershoots | components/ParticleSystem.tsx:87 | For a factor above 1 (a frame longer than 0.2 s), the unclamped step carries the scale past the target |
| ScaleDynamics.ScaleStaysInBand | components/ParticleSystem.tsx:73-87 | From a scale in [0.5, 2.5] with a factor in [0, 1], one step under any gesture keeps it in [0.5, 2.5] |
| ScaleDynamics.PowAdd | components/ParticleSystem.tsx:87 | Supporting lemma of `DecayOverOneSecond` and `DecayAfterOneSecond`: b^(m+n) = b^m · b^n |
| ScaleDynamics.SettleOffset | components/ParticleSystem.tsx:87 | After n frames toward a held target at factor t, the offset from the target is (1 - t)^n times the initial offset |
| ScaleDynamics.SettleDistance | components/ParticleSystem.tsx:87 | For t in [0, 1], the distance to a held target after n frames is (1 - t)^n times the initial distance |
| ScaleDynamics.PowUnit | components/ParticleSystem.tsx:87 | Supporting lemma of `SettleDistance` and `DecayAfterOneSecond`: powers of a factor in [0, 1] stay in [0, 1] |
| ScaleDynamics.DecayOverOneSecond | components/ParticleSystem.tsx:87 | Supporting lemma of `OneSecondOpen`: (11/12)^60 is at most 0.0125 |
| ScaleDynamics.DecayAfterOneSecond | components/ParticleSystem.tsx:87 | Supporting lemma of `OneSecondOpen`: (11/12)^n is at most 0.0125 for every n ≥ 60 |
| ScaleDynamics.OneSecondOpen | components/ParticleSystem.tsx:80-87 | OPEN held for 60 or more frames of 1/60 s, from any scale in [0.5, 2.5], leaves the current scale within 1% of 2.5 |
| ParticleEngine.Noise | components/ParticleSystem.tsx:102-103 | Where the sine is in [-1, 1], particle i's shimmer at time elapsed lies in [-0.2, 0.2] |
| ParticleEngine.Rendered | components/ParticleSystem.tsx:106-108 | A render entry lies within the shimmer amplitude 0.2 of its base entry times the scale, whenever the shimmer does |
| ParticleEngine.Render | components/ParticleSystem.tsx:89-109 | Afterwards entries 3j, 3j+1, 3j+2 of the render buffer are the base entries times the scale, plus one shimmer shared by particle j's three coordinates, for every j < 3000 |
| ParticleEngine.CopyBase | components/ParticleSystem.tsx:70 | A fresh array that is an elementwise copy of the positions |
| ParticleEngine.ParticleField.constructor | components/ParticleSystem.tsx:43-74 | Mounting yields buffers laid out as the generation loop promises, a base that equals the positions, target and current scale 1, and rotation 0 |
| ParticleEngine.ParticleField.SetShape | components/ParticleSystem.tsx:43-70 | The same shape keeps everything; a new shape rebuilds fresh buffers for it and a fresh base copy; scales and rotation carry over |
| ParticleEngine.ParticleField.Frame | components/ParticleSystem.tsx:76-113 | Unmounted: nothing changes. Mounted: the target follows the gesture, the current scale takes one lerp step with factor delta·5, every render entry is its base entry scaled plus its particle's shimmer, and the rotation grows by delta·0.1. The base and colour buffers are never written |

## Findings

| source | as written | input that shows it | evidently intended | confidence | as-written member | corrected member |
|---|---|---|---|---|---|---|
| services/geminiLiveService.ts:75-86 | `onclose` and `onerror` null `this.sessionPromise` whichever session they belong to, so the late close of a disconnected session drops the handle of a newer one | connect (session 1), disconnect, connect (session 2), then session 1's `onclose`, then connect (session 3): session 2 stays open with no handle left to close it | ignore the callbacks of a session that is no longer held (`if (this.sessionPromise === ownPromise)`), so at most one session is ever open | medium; not executed; depends on the library firing `onclose` after `close()` returns | GeminiLiveService.LateCloseLeaks | GeminiLiveService.LiveService.OnCloseGuarded |

## Left out

- Asynchronous interleaving is not modelled. Each callback (`onopen`, `onmessage`, `onclose`, `onerror`, the frame completion) and `disconnect` runs as one atomic step. The acknowledgements queued with `sessionPromise?.then` are emitted at the end of their handler, after its notifications; another callback cannot run between them. The media send of `OnFrameEncoded` is emitted at once.
- Connect, Disconnect: a connect promise that never settles is not modelled. Every later `connect` would return at once, and `disconnect` would wait at its `await` forever. Only the rejected promise is modelled (`OnConnectFailed`).
- OnClose, OnError: no leak is proved only when the closing session is the held one, or no session is held. The late close of an older session leaks, as the finding shows.
- OnMessage does not name the session the message came from. The handler does not depend on it: acknowledgements go to whatever promise is held.
- Calls: when `functionCalls` is absent, the source's `for ... of` throws a TypeError before reaching any call. The model treats that as an empty list, which emits the same nothing.
- The `onerror` argument is only logged and is not modelled. Exceptions thrown by the `onStatusChange` and `onGestureChange` callbacks are not modelled.
- The `@google/genai` connection is not modelled: the model name, the tool declaration, the response modalities and the system instruction. The library is an opaque source of open, message, close and error events.
- The session handle and the `setInterval` id are method parameters. The model assumes the library returns a fresh handle and the browser returns a fresh positive id.
- Canvas drawing, JPEG encoding at quality 0.5, `FileReader` and the base64 split in `blobToBase64` are browser I/O. The model keeps only the capture size (`FrameCapture`) and the send decision (`OnFrameEncoded`).
- The 2 frames-per-second cadence of the frame timer is not modelled, since timers are not modelled. The `console` logging is not modelled either.
- `Math.sin`, `Math.cos`, `Math.acos`, `Math.random` and `setHSL` are function parameters, with no numeric model. The sphere radius and the heart depth are proved from stated assumptions about them.
- Each generation of the buffers receives its own random stream, starting at draw 0. The model does not capture that successive generations continue one global stream.
- Float32 storage and double-precision rounding are not modelled: every number is a real.
- `Math.PI` is the literal 3.141592653589793.
- `ParticleEngine.Noise`: its bound holds only where the sine parameter returns values in [-1, 1].
- `ScaleDynamics.OneSecondOpen` assumes a steady 60 Hz clock (delta = 1/60). The source's delta is whatever the renderer reports.
- React and three.js scheduling are not modelled: `useMemo` recomputation, `useRef`, the `useFrame` callback order and `needsUpdate`. `ParticleField.SetShape` stands for the memo re-running when the `shape` prop changes. `mounted` stands for `points.current` being set.
- The `<points>` JSX, material settings and additive blending are rendering only.
- App.tsx (camera access, fullscreen, React wiring), components/Controls.tsx (presentational) and vite.config.ts (build) are not part of this model.
- The `ParticleConfig` and `GeminiState` interfaces of types.ts are declared but unused by the logic.
