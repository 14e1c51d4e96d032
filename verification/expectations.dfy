/**
  An expectation `expect(actual).to matcher` as the usage comments show it:
  a fresh matcher is asked `matches?`; a `false` verdict fails with its
  `failure_message`, and an error raised by `matches?` ends the expectation
  with that error. These clients show what the matchers' contracts promise
  end to end.
 */
module Expectations {
  import opened Options
  import opened Http
  import opened MediaType
  import opened JsonEngine
  import opened Matchers
  import Dalziel

  datatype Expectation<F> = Passed | Failed(failure: F) | Errored(error: string)

  /**
    `expect(json).to match_json_expression(pattern)`: never an error; text
    that does not parse fails with the "Couldn't parse" form.
   */
  method ExpectExpression<P, J>(engine: Engine<P, J>, pattern: P, json: Input<J>)
    returns (e: Expectation<PatternFailure<J>>)
    ensures !e.Errored?
    ensures json.Text? && engine.parse(json.text).ParseError? ==>
      e == Failed(CouldNotParse(json, engine.parse(json.text).message))
    ensures json.Text? && engine.parse(json.text).Parsed? ==>
      var document := engine.parse(json.text).value;
      e == if engine.accepts(pattern, document) then Passed else Failed(GotDocument(json, document))
    ensures json.Value? ==>
      e == if engine.accepts(pattern, json.value) then Passed else Failed(GotDocument(json, json.value))
  {
    var m := MatchJsonExpression(pattern, engine);
    var verdict := m.Matches(json);
    if verdict {
      e := Passed;
    } else {
      var f := m.FailureMessage();
      e := Failed(f);
    }
  }

  /**
    `expect(request).to match_json_request(pattern)` as written: the first
    recorded request that the request pattern accepts is checked; without
    one the expectation fails with "No request matched". A found request
    passes exactly when its Accept header is JSON and its body satisfies the
    pattern, and otherwise asking for the failure message raises.
   */
  method ExpectRequestAsWritten<P, J>(engine: Engine<P, J>, pattern: P,
                                      requestPattern: Signature -> bool, recorded: seq<Signature>)
    returns (e: Expectation<RequestFailure>)
    ensures FirstAccepted(recorded, requestPattern).None? ==> e == Failed(NoRequestMatched)
    ensures FirstAccepted(recorded, requestPattern).Some? ==>
      var request := recorded[FirstAccepted(recorded, requestPattern).value];
      var accept := Lookup(request.headers, AcceptHeader);
      match engine.parse(request.body)
      case ParseError(message) => e == Errored(message)
      case Parsed(document) =>
        e == if AcceptIsJson(accept) && engine.accepts(pattern, document) then Passed
             else Errored(NoEmptyMethodError)
  {
    var m := MatchJsonRequest(pattern, engine);
    var o := m.Matches(requestPattern, recorded);
    match o
    case Raised(error) =>
      e := Errored(error);
    case Returned(verdict) =>
      if verdict {
        e := Passed;
      } else {
        var f := m.FailureMessage();
        e := if f.Report? then Failed(f.failure) else Errored(f.error);
      }
  }

  /**
    `expect(request).to match_json_request(pattern)` with the failure message
    as intended: without an accepted request the expectation fails with "No
    request matched". A found request passes exactly when its Accept header
    is JSON and its body satisfies the pattern; otherwise a non-JSON Accept
    header is reported ahead of the body, and a request without headers
    raises while it is shown.
   */
  method ExpectRequest<P, J>(engine: Engine<P, J>, pattern: P,
                             requestPattern: Signature -> bool, recorded: seq<Signature>)
    returns (e: Expectation<RequestFailure>)
    ensures FirstAccepted(recorded, requestPattern).None? ==> e == Failed(NoRequestMatched)
    ensures FirstAccepted(recorded, requestPattern).Some? ==>
      var request := recorded[FirstAccepted(recorded, requestPattern).value];
      var accept := Lookup(request.headers, AcceptHeader);
      match engine.parse(request.body)
      case ParseError(message) => e == Errored(message)
      case Parsed(document) =>
        && (e == Passed <==> AcceptIsJson(accept) && engine.accepts(pattern, document))
        && (e != Passed && request.headers == [] ==> e == Errored(Dalziel.EmptyHeadersError))
        && (request.headers != [] && !AcceptIsJson(accept) ==> e == Failed(AcceptNotJson(accept)))
        && (request.headers != [] && AcceptIsJson(accept) && !engine.accepts(pattern, document) ==>
              e == Failed(RequestBodyMismatch))
  {
    var m := MatchJsonRequest(pattern, engine);
    var o := m.Matches(requestPattern, recorded);
    match o
    case Raised(error) =>
      e := Errored(error);
    case Returned(verdict) =>
      if verdict {
        e := Passed;
      } else {
        var f := m.IntendedFailureMessage();
        e := if f.Report? then Failed(f.failure) else Errored(f.error);
      }
  }

  /**
    A recorded request with `Accept: text/html` and a body that parses: as
    written the expectation raises `NoMethodError` from `empty?`, where the
    intended message reports the Accept header.
   */
  method HtmlAcceptCounterexample() returns (asWritten: Expectation<RequestFailure>, intended: Expectation<RequestFailure>)
    ensures asWritten == Errored(NoEmptyMethodError)
    ensures intended == Failed(AcceptNotJson(Some("text/html")))
  {
    var engine: Engine<int, int> := Engine(text => Parsed(0), (pattern, document) => true);
    var request := Signature("POST", "http://example.com/users", [Header("Accept", "text/html")], "{}");
    assert !AcceptIsJson(Some("text/html")) by {
      AcceptIsJsonOnOneLine(Some("text/html"));
    }
    asWritten := ExpectRequestAsWritten(engine, 0, signature => true, [request]);
    intended := ExpectRequest(engine, 0, signature => true, [request]);
  }

  /** The status a response matcher expects: the one given to `status`, or 200. */
  function ExpectedStatus(status: Option<int>): (code: int)
  {
    if status.Some? then status.value else DefaultStatus
  }

  /**
    `expect(response).to match_json_response(pattern)`, followed by
    `.status(code)` when `status` holds a code. A body that does not parse
    is an error. Otherwise the response passes exactly when its status is
    the expected one, its Content-Type is JSON and its body satisfies the
    pattern; a failure names the Content-Type first, then the status, then
    the body, and a response without headers raises while it is shown.
   */
  method ExpectResponse<P, J>(engine: Engine<P, J>, pattern: P, status: Option<int>, r: Response)
    returns (e: Expectation<ResponseFailure>)
    ensures engine.parse(r.body).ParseError? ==> e == Errored(engine.parse(r.body).message)
    ensures engine.parse(r.body).Parsed? ==>
      var document := engine.parse(r.body).value;
      var contentType := Lookup(r.headers, ContentTypeHeader);
      var expected := ExpectedStatus(status);
      && (e == Passed <==>
            r.status == expected && ContentTypeIsJson(contentType) && engine.accepts(pattern, document))
      && (e != Passed && r.headers == [] ==> e == Errored(Dalziel.EmptyHeadersError))
      && (r.headers != [] && !ContentTypeIsJson(contentType) ==> e == Failed(ContentTypeNotJson(contentType)))
      && (r.headers != [] && ContentTypeIsJson(contentType) && r.status != expected ==>
            e == Failed(UnexpectedStatus(expected, r.status)))
      && (r.headers != [] && ContentTypeIsJson(contentType) && r.status == expected
          && !engine.accepts(pattern, document) ==>
            e == Failed(ResponseBodyMismatch))
  {
    var m := MatchJsonResponse(pattern, engine);
    if status.Some? {
      m := m.Status(status.value);
    }
    var o := m.Matches(r);
    match o
    case Raised(error) =>
      e := Errored(error);
    case Returned(verdict) =>
      if verdict {
        e := Passed;
      } else {
        var f := m.FailureMessage();
        e := if f.Report? then Failed(f.failure) else Errored(f.error);
      }
  }

  /**
    A matcher object used twice keeps the parse error of its first use: after
    text that does not parse, a value that fails the pattern is still reported
    in the "Couldn't parse" form, together with the new input.
   */
  method ReusedPatternMatcher<P, J>(engine: Engine<P, J>, pattern: P, unparsable: string, value: J)
    returns (first: bool, second: bool, f: PatternFailure<J>)
    requires engine.parse(unparsable).ParseError?
    requires !engine.accepts(pattern, value)
    ensures !first && !second
    ensures f == CouldNotParse(Value(value), engine.parse(unparsable).message)
  {
    var m := MatchJsonExpression(pattern, engine);
    first := m.Matches(Text(unparsable));
    second := m.Matches(Value(value));
    f := m.FailureMessage();
  }
}
