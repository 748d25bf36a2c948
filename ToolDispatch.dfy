/**
 * The tool-call protocol of the live session (services/geminiLiveService.ts, `onmessage`):
 * inbound messages, the events the service emits, and what one message produces.
 */
module ToolDispatch {
  import opened Wrappers
  import opened Types

  /** The name of the one declared tool. */
  const TOOL_NAME: string := "setHandGesture"
  /** The value the model sends for an open hand; anything else decodes as CLOSED. */
  const OPEN_ARG: string := "OPEN"
  /** The result every acknowledgement carries. */
  const ACK_RESULT: string := "ok"
  /** The MIME type of every realtime frame. */
  const FRAME_MIME: string := "image/jpeg"

  /**
   * The `args` object of a function call: `Missing` when the call carries no
   * arguments object at all (reading `.gesture` from it throws), otherwise the
   * `gesture` field, `None` when it is absent or not a string.
   */
  datatype Args = Missing | Present(gesture: Option<string>)

  datatype FunctionCall = FunctionCall(id: Option<string>, name: Option<string>, args: Args)

  /** `message.toolCall`, whose `functionCalls` list may itself be absent. */
  datatype ToolCall = ToolCall(functionCalls: Option<seq<FunctionCall>>)

  datatype ServerMessage = ServerMessage(toolCall: Option<ToolCall>)

  /**
   * Everything the service makes observable: the two callbacks handed to it
   * (`onStatusChange`, `onGestureChange`) and what it sends to, or asks of,
   * the session library. Sessions are named by the handle `connect` got for them.
   */
  datatype Event =
    | StatusChange(connected: bool)
    | GestureChange(gesture: HandGesture)
    | ToolResponse(session: nat, id: Option<string>, name: string, result: string)
    | MediaSend(session: nat, data: string, mimeType: string)
    | ConnectRequest(session: nat)
    | CloseRequest(session: nat)

  /** `gestureStr === 'OPEN' ? OPEN : CLOSED` */
  function DecodeGesture(arg: Option<string>): (g: HandGesture)
    ensures g == Open <==> arg == Some(OPEN_ARG)
    ensures g == Closed <==> arg != Some(OPEN_ARG)
    ensures g != Unknown
  {
    if arg == Some(OPEN_ARG) then Open else Closed
  }

  predicate IsGestureCall(fc: FunctionCall) {
    fc.name == Some(TOOL_NAME)
  }

  /** A `setHandGesture` call without an arguments object: decoding it throws. */
  predicate Throws(fc: FunctionCall) {
    IsGestureCall(fc) && fc.args.Missing?
  }

  /** A call that is decoded and answered. */
  predicate Answered(fc: FunctionCall) {
    IsGestureCall(fc) && fc.args.Present?
  }

  /** How many calls of the list the loop gets through before a call throws. */
  function Handled(calls: seq<FunctionCall>): (n: nat)
    ensures n <= |calls|
    ensures forall j :: 0 <= j < n ==> !Throws(calls[j])
    ensures n < |calls| ==> Throws(calls[n])
  {
    if calls == [] then 0
    else if Throws(calls[0]) then 0
    else 1 + Handled(calls[1..])
  }

  /** The `onGestureChange` call for a decoded call. */
  function Notification(fc: FunctionCall): Event
    requires fc.args.Present?
  {
    GestureChange(DecodeGesture(fc.args.gesture))
  }

  /** The tool response acknowledging a call on `session`. */
  function Acknowledgement(fc: FunctionCall, session: nat): Event {
    ToolResponse(session, fc.id, TOOL_NAME, ACK_RESULT)
  }

  /** The answered calls among the first `n` of a list, in list order (the reference the lemmas compare against). */
  function AnsweredCalls(calls: seq<FunctionCall>, n: nat): seq<FunctionCall>
    requires n <= |calls|
  {
    if n == 0 then [] else AnsweredCalls(calls, n - 1) + (if Answered(calls[n - 1]) then [calls[n - 1]] else [])
  }

  /** The calls named `setHandGesture` among the first `n` of a list, in list order. */
  function GestureCalls(calls: seq<FunctionCall>, n: nat): seq<FunctionCall>
    requires n <= |calls|
  {
    if n == 0 then [] else GestureCalls(calls, n - 1) + (if IsGestureCall(calls[n - 1]) then [calls[n - 1]] else [])
  }

  /** The gesture notifications the loop makes, synchronously, for the first `n` calls. */
  function Notified(calls: seq<FunctionCall>, n: nat): (ev: seq<Event>)
    requires n <= |calls|
    ensures |ev| == |AnsweredCalls(calls, n)|
    ensures forall e :: e in ev ==> e.GestureChange? && e.gesture != Unknown
  {
    if n == 0 then []
    else Notified(calls, n - 1) + (if Answered(calls[n - 1]) then [Notification(calls[n - 1])] else [])
  }

  /**
   * The acknowledgements the loop queues on the session promise for the first
   * `n` calls; `target` is the session the queued callbacks reach, `None` when
   * the handle is null (or its promise rejected) and nothing is sent.
   */
  function Acknowledged(calls: seq<FunctionCall>, n: nat, target: Option<nat>): (ev: seq<Event>)
    requires n <= |calls|
    ensures |ev| == if target.Some? then |AnsweredCalls(calls, n)| else 0
    ensures forall e :: e in ev ==>
      e.ToolResponse? && Some(e.session) == target && e.name == TOOL_NAME && e.result == ACK_RESULT
  {
    if n == 0 then []
    else
      var ack := if Answered(calls[n - 1]) && target.Some? then [Acknowledgement(calls[n - 1], target.value)] else [];
      Acknowledged(calls, n - 1, target) + ack
  }

  /** The function calls of a message; none when `toolCall` or its `functionCalls` is absent. */
  function Calls(msg: ServerMessage): (calls: seq<FunctionCall>)
    ensures calls != [] ==> msg.toolCall.Some? && msg.toolCall.value.functionCalls == Some(calls)
    ensures msg.toolCall.Some? && msg.toolCall.value.functionCalls.Some? ==>
      calls == msg.toolCall.value.functionCalls.value
  {
    match msg.toolCall
    case None => []
    case Some(tc) =>
      match tc.functionCalls
      case None => []
      case Some(calls) => calls
  }

  /**
   * Everything one inbound message makes the service emit: the notifications
   * while the loop runs, then the acknowledgements its queued callbacks send.
   */
  function MessageEvents(msg: ServerMessage, target: Option<nat>): (ev: seq<Event>)
    ensures var answered := AnsweredCalls(Calls(msg), Handled(Calls(msg)));
      |ev| == |answered| + (if target.Some? then |answered| else 0)
  {
    Notified(Calls(msg), Handled(Calls(msg))) + Acknowledged(Calls(msg), Handled(Calls(msg)), target)
  }

  /** Every answered call has an arguments object, so its gesture can be read. */
  lemma {:induction false} AnsweredCallsArePresent(calls: seq<FunctionCall>, n: nat)
    requires n <= |calls|
    ensures forall k :: 0 <= k < |AnsweredCalls(calls, n)| ==>
      Answered(AnsweredCalls(calls, n)[k]) && AnsweredCalls(calls, n)[k].args.Present?
  {
    if n > 0 {
      AnsweredCallsArePresent(calls, n - 1);
    }
  }

  /** The k-th notification is the decoded gesture of the k-th answered call. */
  lemma {:induction false} NotifiedInOrder(calls: seq<FunctionCall>, n: nat)
    requires n <= |calls|
    ensures forall k :: 0 <= k < |AnsweredCalls(calls, n)| ==>
      AnsweredCalls(calls, n)[k].args.Present? &&
      Notified(calls, n)[k] == Notification(AnsweredCalls(calls, n)[k])
  {
    AnsweredCallsArePresent(calls, n);
    if n > 0 {
      var last := calls[n - 1];
      NotifiedInOrder(calls, n - 1);
      var a := AnsweredCalls(calls, n - 1);
      assert AnsweredCalls(calls, n) == a + (if Answered(last) then [last] else []);
      forall k | 0 <= k < |AnsweredCalls(calls, n)|
        ensures Notified(calls, n)[k] == Notification(AnsweredCalls(calls, n)[k])
      {
        if k < |a| {
          assert AnsweredCalls(calls, n)[k] == a[k];
        } else {
          assert AnsweredCalls(calls, n)[k] == last;
        }
      }
    }
  }

  /** On a session, the k-th acknowledgement answers the k-th answered call, by its id. */
  lemma {:induction false} AcknowledgedInOrder(calls: seq<FunctionCall>, n: nat, session: nat)
    requires n <= |calls|
    ensures forall k :: 0 <= k < |AnsweredCalls(calls, n)| ==>
      Acknowledged(calls, n, Some(session))[k] == Acknowledgement(AnsweredCalls(calls, n)[k], session)
  {
    if n > 0 {
      var last := calls[n - 1];
      AcknowledgedInOrder(calls, n - 1, session);
      var a := AnsweredCalls(calls, n - 1);
      assert AnsweredCalls(calls, n) == a + (if Answered(last) then [last] else []);
      forall k | 0 <= k < |AnsweredCalls(calls, n)|
        ensures Acknowledged(calls, n, Some(session))[k] == Acknowledgement(AnsweredCalls(calls, n)[k], session)
      {
        if k < |a| {
          assert AnsweredCalls(calls, n)[k] == a[k];
        } else {
          assert AnsweredCalls(calls, n)[k] == last;
        }
      }
    }
  }

  /** A message whose `setHandGesture` calls all carry arguments is processed to its end. */
  lemma WellFormedMessageFullyProcessed(msg: ServerMessage)
    requires forall j :: 0 <= j < |Calls(msg)| ==> !Throws(Calls(msg)[j])
    ensures Handled(Calls(msg)) == |Calls(msg)|
  {
  }

  /** Before the first throwing call, the answered calls are all of the `setHandGesture` calls. */
  lemma {:induction false} AnsweredAreAllGestureCalls(calls: seq<FunctionCall>, n: nat)
    requires n <= |calls|
    requires forall j :: 0 <= j < n ==> !Throws(calls[j])
    ensures AnsweredCalls(calls, n) == GestureCalls(calls, n)
  {
    if n > 0 {
      AnsweredAreAllGestureCalls(calls, n - 1);
    }
  }

  /**
   * One message: each `setHandGesture` call it gets through is notified, in
   * list order; then, when the queued callbacks reach a session, each is
   * acknowledged on it by id, again in list order. Other calls produce
   * nothing, and UNKNOWN is never notified.
   */
  lemma MessageProtocol(msg: ServerMessage, target: Option<nat>)
    ensures var calls, n := Calls(msg), Handled(Calls(msg));
      GestureCalls(calls, n) == AnsweredCalls(calls, n)
    ensures var answered, ev := AnsweredCalls(Calls(msg), Handled(Calls(msg))), MessageEvents(msg, target);
      |ev| == |answered| + (if target.Some? then |answered| else 0) &&
      forall k :: 0 <= k < |answered| ==>
        answered[k].args.Present? && ev[k] == Notification(answered[k]) &&
        (target.Some? ==> ev[|answered| + k] == Acknowledgement(answered[k], target.value))
    ensures forall e :: e in MessageEvents(msg, target) ==> e != GestureChange(Unknown)
  {
    var calls, n := Calls(msg), Handled(Calls(msg));
    AnsweredAreAllGestureCalls(calls, n);
    NotifiedInOrder(calls, n);
    if target.Some? {
      AcknowledgedInOrder(calls, n, target.value);
    }
  }
}
