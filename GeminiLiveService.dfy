/**
 * The live session manager (services/geminiLiveService.ts): one session handle,
 * one frame-timer handle, and the entry points and library callbacks that
 * change them. Each callback runs atomically. The network library and the
 * browser timer registry are the environment: ghost sets record the sessions
 * the library holds open and the timers the browser keeps firing.
 */
module GeminiLiveService {
  import opened Wrappers
  import opened Types
  import opened ToolDispatch

  /** The capture canvas size for one frame tick. */
  datatype FrameSize = FrameSize(width: nat, height: nat)

  /**
   * One tick of the frame timer: nothing without a 2D context or while the
   * video has no width yet; otherwise half the video size, truncated as the
   * canvas's integer `width` / `height` attributes truncate.
   */
  function FrameCapture(hasContext: bool, videoWidth: nat, videoHeight: nat): (r: Option<FrameSize>)
    ensures r.Some? <==> hasContext && videoWidth != 0
    ensures r.Some? ==>
      2 * r.value.width <= videoWidth <= 2 * r.value.width + 1 &&
      2 * r.value.height <= videoHeight <= 2 * r.value.height + 1
  {
    if !hasContext || videoWidth == 0 then None
    else Some(FrameSize(videoWidth / 2, videoHeight / 2))
  }

  /** JavaScript truthiness of a nullable timer id: `null` and `0` are falsy. */
  predicate Truthy(h: Option<nat>)
    ensures h.None? ==> !Truthy(h)
    ensures h == Some(0) ==> !Truthy(h)
    ensures h.Some? && h.value > 0 ==> Truthy(h)
  {
    h.Some? && h.value != 0
  }

  /**
   * `sessionPromise`: the promise `live.connect` returned for session
   * `handle`, with `rejected` set once that connect has failed.
   */
  datatype SessionPromise = SessionPromise(handle: nat, rejected: bool)

  /**
   * The session a callback queued with `sessionPromise?.then` reaches: none
   * while the handle is null, and none on a rejected promise, whose `then`
   * callbacks never run.
   */
  function Target(p: Option<SessionPromise>): (s: Option<nat>)
    ensures s.Some? <==> p.Some? && !p.value.rejected
    ensures s.Some? ==> s.value == p.value.handle
  {
    if p.Some? && !p.value.rejected then Some(p.value.handle) else None
  }

  class LiveService {
    /** `sessionPromise`: the promise of the session `connect` opened, or null. */
    var session: Option<SessionPromise>
    /** `videoInterval`: the id `setInterval` returned, or null. */
    var videoInterval: Option<nat>

    /** Every event emitted so far, oldest first. */
    ghost var trace: seq<Event>
    /** Callbacks queued on the session promise during the current handler, in queue order. */
    ghost var pending: seq<Event>
    /** Every session `connect` asked the library for; each has its own callbacks. */
    ghost var registered: set<nat>
    /** Sessions the library holds open: connected, not failed, not closed by request or by their own close. */
    ghost var live: set<nat>
    /** Interval timers the browser keeps firing on this service's behalf. */
    ghost var activeTimers: set<nat>

    /**
     * The handle names a live session unless its connect failed, every live
     * session was registered, exactly the timer the handle names is firing,
     * and no queued callback is left between handlers.
     */
    ghost predicate Valid()
      reads this
    {
      (Target(session).Some? ==> Target(session).value in live) &&
      (session.Some? ==> session.value.handle in registered) &&
      live <= registered &&
      activeTimers == (if videoInterval.Some? then {videoInterval.value} else {}) &&
      (videoInterval.Some? ==> videoInterval.value > 0) &&
      pending == []
    }

    /**
     * No session is leaked: the library holds open exactly the session the
     * handle names, so there is never more than one, and `disconnect` can close it.
     */
    ghost predicate NoLeak()
      reads this
    {
      live == (if Target(session).Some? then {Target(session).value} else {})
    }

    /** A connect failed and its rejected promise stays in the handle. */
    ghost predicate Stuck()
      reads this
    {
      session.Some? && session.value.rejected
    }

    constructor ()
      ensures Valid() && NoLeak()
      ensures session == None && videoInterval == None
      ensures trace == [] && registered == {} && live == {} && activeTimers == {}
    {
      session, videoInterval := None, None;
      trace, pending := [], [];
      registered, live, activeTimers := {}, {}, {};
    }

    /**
     * `connect`: a no-op while a session promise is held, even a rejected one;
     * otherwise asks the library for a new session, `handle`, and keeps its promise.
     */
    method Connect(handle: nat)
      requires Valid()
      requires handle !in registered
      modifies this
      ensures Valid()
      ensures old(session).Some? ==> unchanged(this)
      ensures old(session).None? ==>
        session == Some(SessionPromise(handle, false)) &&
        registered == old(registered) + {handle} && live == old(live) + {handle} &&
        trace == old(trace) + [ConnectRequest(handle)]
      ensures videoInterval == old(videoInterval) && activeTimers == old(activeTimers)
      ensures old(NoLeak()) ==> NoLeak()
    {
      if session.Some? {
        return;
      }
      session := Some(SessionPromise(handle, false));
      registered := registered + {handle};
      live := live + {handle};
      trace := trace + [ConnectRequest(handle)];
    }

    /**
     * The library's connect for session `from` fails: its promise rejects and
     * the session never opens. Nothing in the service handles the rejection;
     * if it is the held promise, it stays in the handle.
     */
    method OnConnectFailed(from: nat)
      requires Valid()
      requires from in registered
      modifies this`session, this`live
      ensures Valid()
      ensures live == old(live) - {from}
      ensures session ==
        if old(session) == Some(SessionPromise(from, false)) then Some(SessionPromise(from, true)) else old(session)
      ensures old(NoLeak()) ==> NoLeak()
    {
      if session == Some(SessionPromise(from, false)) {
        session := Some(SessionPromise(from, true));
      }
      live := live - {from};
    }

    /** `onopen`: reports connected, then starts the frame timer `timer`. */
    method OnOpen(timer: nat)
      requires Valid()
      requires timer > 0 && timer !in activeTimers
      modifies this
      ensures Valid()
      ensures trace == old(trace) + [StatusChange(true)]
      ensures videoInterval == Some(timer) && activeTimers == {timer}
      ensures session == old(session) && registered == old(registered) && live == old(live)
    {
      trace := trace + [StatusChange(true)];
      StartVideoStream(timer);
    }

    /**
     * `onmessage`: for each function call of the message in turn, a
     * `setHandGesture` call notifies its decoded gesture and queues its
     * acknowledgement on whatever session promise is held at that moment; the
     * loop ends early where a call without arguments throws. The queued
     * callbacks run once the handler has returned, in the order queued.
     */
    method OnMessage(msg: ServerMessage)
      requires Valid()
      modifies this
      ensures Valid()
      ensures trace == old(trace) + MessageEvents(msg, Target(session))
      ensures session == old(session) && videoInterval == old(videoInterval)
      ensures registered == old(registered) && live == old(live) && activeTimers == old(activeTimers)
    {
      if msg.toolCall.None? || msg.toolCall.value.functionCalls.None? {
        return;
      }
      var calls := msg.toolCall.value.functionCalls.value;
      assert Calls(msg) == calls;
      ghost var trace0 := trace;
      DispatchCalls(calls);
      trace := trace + pending;
      pending := [];
      assert trace == trace0 + (Notified(calls, Handled(calls)) + Acknowledged(calls, Handled(calls), Target(session)));
    }

    /**
     * The `for` loop of `onmessage` over `calls`: the notifications of the
     * calls it gets through are emitted, and their acknowledgements queued.
     */
    method DispatchCalls(calls: seq<FunctionCall>)
      modifies this`trace, this`pending
      ensures trace == old(trace) + Notified(calls, Handled(calls))
      ensures pending == old(pending) + Acknowledged(calls, Handled(calls), Target(session))
    {
      ghost var trace0, pending0, handled := trace, pending, Handled(calls);
      var i := 0;
      while i < |calls|
        invariant 0 <= i <= handled
        invariant trace == trace0 + Notified(calls, i)
        invariant pending == pending0 + Acknowledged(calls, i, Target(session))
      {
        var threw := HandleCall(calls[i]);
        if threw {
          break;
        }
        i := i + 1;
      }
    }

    /**
     * The body of the `onmessage` loop for one function call: a
     * `setHandGesture` call notifies its decoded gesture and queues its
     * acknowledgement on the session promise; `threw` reports that reading
     * the gesture of an absent arguments object threw, before anything happened.
     */
    method HandleCall(fc: FunctionCall) returns (threw: bool)
      modifies this`trace, this`pending
      ensures threw == Throws(fc)
      ensures trace == old(trace) + (if Answered(fc) then [Notification(fc)] else [])
      ensures pending == old(pending) +
        (if Answered(fc) && Target(session).Some? then [Acknowledgement(fc, Target(session).value)] else [])
    {
      threw := false;
      if fc.name == Some(TOOL_NAME) {
        if fc.args.Missing? {
          // reading `.gesture` of an absent arguments object throws
          threw := true;
          return;
        }
        var gesture := DecodeGesture(fc.args.gesture);
        trace := trace + [GestureChange(gesture)];
        // `then` on a rejected promise never runs its callback
        if session.Some? && !session.value.rejected {
          pending := pending + [ToolResponse(session.value.handle, fc.id, TOOL_NAME, ACK_RESULT)];
        }
      }
    }

    /**
     * `onclose` of session `from`: reports disconnected, stops the frame timer
     * and nulls the handle, whichever session the handle names by now.
     */
    method OnClose(from: nat)
      requires Valid()
      requires from in registered
      modifies this
      ensures Valid()
      ensures trace == old(trace) + [StatusChange(false)]
      ensures session == None && videoInterval == None && activeTimers == {}
      ensures live == old(live) - {from} && registered == old(registered)
      ensures old(NoLeak()) && (Target(old(session)).None? || Target(old(session)) == Some(from)) ==> NoLeak()
    {
      trace := trace + [StatusChange(false)];
      StopVideoStream();
      session := None;
      live := live - {from};
    }

    /** `onerror` of session `from`: the same teardown as `onclose`. */
    method OnError(from: nat)
      requires Valid()
      requires from in registered
      modifies this
      ensures Valid()
      ensures trace == old(trace) + [StatusChange(false)]
      ensures session == None && videoInterval == None && activeTimers == {}
      ensures live == old(live) - {from} && registered == old(registered)
      ensures old(NoLeak()) && (Target(old(session)).None? || Target(old(session)) == Some(from)) ==> NoLeak()
    {
      trace := trace + [StatusChange(false)];
      StopVideoStream();
      session := None;
      live := live - {from};
    }

    /**
     * `onclose` / `onerror` of session `from` guarded by
     * `this.sessionPromise === ownPromise`: the teardown runs only when `from`
     * is the session the handle names; an event of an older session is ignored.
     */
    method OnCloseGuarded(from: nat)
      requires Valid()
      requires from in registered
      modifies this
      ensures Valid()
      ensures live == old(live) - {from} && registered == old(registered)
      ensures old(session).Some? && old(session).value.handle == from ==>
        session == None && videoInterval == None && activeTimers == {} &&
        trace == old(trace) + [StatusChange(false)]
      ensures !(old(session).Some? && old(session).value.handle == from) ==>
        session == old(session) && videoInterval == old(videoInterval) &&
        activeTimers == old(activeTimers) && trace == old(trace)
      ensures old(NoLeak()) ==> NoLeak()
    {
      if session.Some? && session.value.handle == from {
        trace := trace + [StatusChange(false)];
        StopVideoStream();
        session := None;
      }
      live := live - {from};
    }

    /**
     * `disconnect`: closes the session if a handle is held, then always stops
     * the frame timer and reports disconnected. On a rejected promise the
     * `await` throws first and nothing changes.
     */
    method Disconnect() returns (threw: bool)
      requires Valid()
      modifies this
      ensures Valid()
      ensures threw <==> old(Stuck())
      ensures threw ==> unchanged(this)
      ensures !threw ==>
        session == None && videoInterval == None && activeTimers == {} &&
        live == old(live) - (if old(session).Some? then {old(session).value.handle} else {}) &&
        trace == old(trace) + (if old(session).Some? then [CloseRequest(old(session).value.handle)] else []) +
          [StatusChange(false)]
      ensures registered == old(registered)
      ensures old(NoLeak()) ==> NoLeak()
    {
      threw := false;
      if session.Some? {
        if session.value.rejected {
          // `await` of a rejected promise throws
          threw := true;
          return;
        }
        var h := session.value.handle;
        trace := trace + [CloseRequest(h)];
        live := live - {h};
        session := None;
      }
      StopVideoStream();
      trace := trace + [StatusChange(false)];
    }

    /** `startVideoStream`: clears any running timer, then installs `timer`. */
    method StartVideoStream(timer: nat)
      requires Valid()
      requires timer > 0 && timer !in activeTimers
      modifies this`videoInterval, this`activeTimers
      ensures Valid()
      ensures videoInterval == Some(timer) && activeTimers == {timer}
    {
      if Truthy(videoInterval) {
        activeTimers := activeTimers - {videoInterval.value};
      }
      videoInterval := Some(timer);
      activeTimers := activeTimers + {timer};
    }

    /** `stopVideoStream`: clears the running timer, if any. */
    method StopVideoStream()
      requires Valid()
      modifies this`videoInterval, this`activeTimers
      ensures Valid()
      ensures videoInterval == None && activeTimers == {}
    {
      if Truthy(videoInterval) {
        activeTimers := activeTimers - {videoInterval.value};
        videoInterval := None;
      }
    }

    /**
     * The completion of one frame's encoding (`toBlob` callback, after base64
     * conversion): `encoded` is the base64 text, `None` when no blob came back.
     * The frame is sent only to a session the held promise still reaches.
     */
    method OnFrameEncoded(encoded: Option<string>)
      requires Valid()
      modifies this`trace
      ensures trace == old(trace) +
        (if encoded.Some? && Target(session).Some? then [MediaSend(Target(session).value, encoded.value, FRAME_MIME)] else [])
    {
      if encoded.Some? && session.Some? && !session.value.rejected {
        trace := trace + [MediaSend(session.value.handle, encoded.value, FRAME_MIME)];
      }
    }
  }

  /**
   * A client run: disconnect before any connect and twice in a row is safe;
   * a second connect while a session is held is ignored; an error clears the
   * way for a new connect; a message is answered on the current session; and
   * a frame finishing after disconnect is dropped.
   */
  method LifecycleScenario(msg: ServerMessage)
  {
    var s := new LiveService();
    var threw := s.Disconnect();
    threw := s.Disconnect();
    assert s.trace == [StatusChange(false), StatusChange(false)];
    s.Connect(1);
    s.Connect(2);
    assert s.session == Some(SessionPromise(1, false)) && s.live == {1};
    s.OnOpen(7);
    s.OnOpen(8);
    assert s.activeTimers == {8};
    s.OnError(1);
    assert s.session == None && s.activeTimers == {} && s.NoLeak();
    s.Connect(3);
    ghost var before := s.trace;
    s.OnMessage(msg);
    assert s.trace == before + MessageEvents(msg, Some(3));
    before := s.trace;
    threw := s.Disconnect();
    assert s.trace == before + [CloseRequest(3), StatusChange(false)];
    s.OnFrameEncoded(Some("frame"));
    assert s.trace == before + [CloseRequest(3), StatusChange(false)] && s.NoLeak();
  }

  /**
   * The late close as written: session 1 is disconnected, session 2 connects,
   * then session 1's `onclose` arrives and nulls session 2's handle. The next
   * connect opens session 3 while session 2 is still open, with no handle left
   * to close it.
   */
  method LateCloseLeaks() returns (s: LiveService)
    ensures s.session == Some(SessionPromise(3, false)) && s.live == {2, 3} && !s.NoLeak()
  {
    s := new LiveService();
    s.Connect(1);
    s.OnOpen(7);
    var threw := s.Disconnect();
    s.Connect(2);
    s.OnOpen(8);
    s.OnClose(1);
    s.Connect(3);
  }

  /** The same run with the guarded close: session 1's late close is ignored and session 2 stays the only one. */
  method LateCloseIgnored() returns (s: LiveService)
    ensures s.session == Some(SessionPromise(2, false)) && s.live == {2} && s.NoLeak()
  {
    s := new LiveService();
    s.Connect(1);
    s.OnOpen(7);
    var threw := s.Disconnect();
    s.Connect(2);
    s.OnOpen(8);
    s.OnCloseGuarded(1);
    s.Connect(3);
  }

  /**
   * A failed connect blocks the service until an `onclose` or `onerror` of any
   * session clears the handle: until then later connects are ignored and
   * every disconnect throws.
   */
  method FailedConnectBlocks() returns (s: LiveService)
    ensures s.Stuck() && s.live == {} && s.trace == [ConnectRequest(1)]
  {
    s := new LiveService();
    s.Connect(1);
    s.OnConnectFailed(1);
    s.Connect(2);
    var threw := s.Disconnect();
    assert threw;
  }
}
