/** The request and response objects the route handlers are given. */
module Http {
  import opened Js

  /** The parts of an incoming request that handlers and checks read:
      the route parameters (`request.params`), the query string, the
      headers and the parsed body (`Undefined` when there is none). */
  datatype Request = Request(
    params: map<string, string>,
    query: map<string, string>,
    headers: map<string, string>,
    body: Json)

  /** What a response carries once written: a JSON value (`json(...)`) or plain text (`send(...)`). */
  datatype Payload = JsonBody(value: Json) | TextBody(text: string)

  /** One call on the response object. */
  datatype ResponseOp = SetStatus(code: int) | Write(payload: Payload)

  /** The observable state of a response: the status code set so far
      (`None` leaves the framework's default in place) and every payload
      written, in order. */
  datatype ResponseState = ResponseState(statusCode: Option<int>, sent: seq<Payload>)

  function Step(s: ResponseState, op: ResponseOp): ResponseState {
    match op
    case SetStatus(code) => s.(statusCode := Some(code))
    case Write(p) => s.(sent := s.sent + [p])
  }

  /** Number of payload writes among `ops`. */
  function Writes(ops: seq<ResponseOp>): nat {
    if ops == [] then 0 else (if ops[0].Write? then 1 else 0) + Writes(ops[1..])
  }

  /** The payloads `ops` write, in order. */
  function Payloads(ops: seq<ResponseOp>): seq<Payload> {
    if ops == [] then [] else (if ops[0].Write? then [ops[0].payload] else []) + Payloads(ops[1..])
  }

  /** The state after performing `ops` one after the other, starting from `s`.
      Payloads only accumulate: earlier writes are never lost. */
  function Applied(s: ResponseState, ops: seq<ResponseOp>): (r: ResponseState)
    ensures r.sent == s.sent + Payloads(ops)
    ensures |r.sent| == |s.sent| + Writes(ops)
    ensures (forall i :: 0 <= i < |ops| ==> !ops[i].SetStatus?) ==> r.statusCode == s.statusCode
    decreases |ops|
  {
    if ops == [] then s else Applied(Step(s, ops[0]), ops[1..])
  }

  /** Performing `a` and then `b` is performing `a + b`. */
  lemma {:induction false} AppliedConcat(s: ResponseState, a: seq<ResponseOp>, b: seq<ResponseOp>)
    ensures Applied(s, a + b) == Applied(Applied(s, a), b)
    decreases |a|
  {
    if a == [] {
      assert a + b == b;
    } else {
      assert (a + b)[0] == a[0];
      assert (a + b)[1..] == a[1..] + b;
      AppliedConcat(Step(s, a[0]), a[1..], b);
    }
  }

  /** The response object: `status(code)` sets the status code, `json(v)`
      and `send(text)` write a payload. */
  class Response {
    var statusCode: Option<int>
    var sent: seq<Payload>

    constructor ()
      ensures statusCode == None && sent == []
    {
      statusCode := None;
      sent := [];
    }

    function State(): ResponseState
      reads this
    {
      ResponseState(statusCode, sent)
    }

    method Status(code: int)
      modifies this
      ensures statusCode == Some(code) && sent == old(sent)
    {
      statusCode := Some(code);
    }

    method Json(v: Json)
      modifies this
      ensures sent == old(sent) + [JsonBody(v)] && statusCode == old(statusCode)
    {
      sent := sent + [JsonBody(v)];
    }

    method Send(text: string)
      modifies this
      ensures sent == old(sent) + [TextBody(text)] && statusCode == old(statusCode)
    {
      sent := sent + [TextBody(text)];
    }

    method Perform(op: ResponseOp)
      modifies this
      ensures State() == Step(old(State()), op)
    {
      match op
      case SetStatus(code) => Status(code);
      case Write(JsonBody(v)) => Json(v);
      case Write(TextBody(t)) => Send(t);
    }

    /** Performs `ops` in order. */
    method PerformAll(ops: seq<ResponseOp>)
      modifies this
      ensures State() == Applied(old(State()), ops)
    {
      var i := 0;
      while i < |ops|
        invariant 0 <= i <= |ops|
        invariant State() == Applied(old(State()), ops[..i])
      {
        AppliedConcat(old(State()), ops[..i], [ops[i]]);
        assert ops[..i + 1] == ops[..i] + [ops[i]];
        Perform(ops[i]);
        i := i + 1;
      }
      assert ops[..i] == ops;
    }
  }
}
