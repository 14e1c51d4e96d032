/**
  The three matchers. Each keeps what its last `matches?` call saw in fields,
  and `failure_message` reads those fields back. The external pattern engine,
  the recorded requests and the request pattern are parameters.
 */
module Matchers {
  import opened Options
  import opened Http
  import opened MediaType
  import opened JsonEngine
  import Dalziel

  const ContentTypeHeader := "Content-Type"
  const AcceptHeader := "Accept"
  const DefaultStatus := 200

  /** What `@request.empty?` raises: a recorded request signature has no `empty?` method. */
  const NoEmptyMethodError := "NoMethodError: undefined method `empty?' for a request signature"

  /** Index of the first signature in `signatures` that `accepts` holds of. */
  function FirstAccepted(signatures: seq<Signature>, accepts: Signature -> bool): (r: Option<nat>)
    ensures r.Some? ==> r.value < |signatures| && accepts(signatures[r.value])
    ensures r.Some? ==> forall j :: 0 <= j < r.value ==> !accepts(signatures[j])
    ensures r.None? <==> forall j :: 0 <= j < |signatures| ==> !accepts(signatures[j])
  {
    if |signatures| == 0 then None
    else if accepts(signatures[0]) then Some(0)
    else match FirstAccepted(signatures[1..], accepts)
      case None => None
      case Some(i) => Some(i + 1)
  }

  // ---------------------------------------------------------------------------
  // JSONPatternMatcher

  /** `JSONPatternMatcher#failure_message`, without the indented text and the engine's own explanation. */
  datatype PatternFailure<J> =
    | CouldNotParse(original: Input<J>, error: string)
    | GotDocument(original: Input<J>, document: J)

  class JsonPatternMatcher<P, J> {
    const jsonExpression: P
    const engine: Engine<P, J>
    var original: Option<Input<J>>   // @original
    var hash: Option<J>              // @hash
    var notParsable: Option<string>  // @not_parsable_json

    /** Every `matches?` call sets the original input and leaves a document or a parse error. */
    ghost predicate Valid()
      reads this
    {
      && (original.None? ==> hash.None? && notParsable.None?)
      && (original.Some? ==> hash.Some? || notParsable.Some?)
    }

    constructor (jsonExpression: P, engine: Engine<P, J>)
      ensures Valid()
      ensures this.jsonExpression == jsonExpression && this.engine == engine
      ensures original == None && hash == None && notParsable == None
    {
      this.jsonExpression := jsonExpression;
      this.engine := engine;
      original, hash, notParsable := None, None, None;
    }

    method DoesNotMatch() returns (o: Outcome)
      ensures o == Raised(InvertedMatching)
    {
      o := Raised(InvertedMatching);
    }

    /**
      `matches?`: text is parsed first, a value is matched as it is. A parse
      error is recorded and gives `false` instead of being raised. The error
      of an earlier call stays recorded.
     */
    method Matches(json: Input<J>) returns (verdict: bool)
      requires Valid()
      modifies this
      ensures Valid()
      ensures original == Some(json)
      ensures json.Value? ==>
        hash == Some(json.value) && notParsable == old(notParsable)
        && verdict == engine.accepts(jsonExpression, json.value)
      ensures json.Text? && engine.parse(json.text).Parsed? ==>
        hash == Some(engine.parse(json.text).value) && notParsable == old(notParsable)
        && verdict == engine.accepts(jsonExpression, engine.parse(json.text).value)
      ensures json.Text? && engine.parse(json.text).ParseError? ==>
        hash == old(hash) && notParsable == Some(engine.parse(json.text).message) && !verdict
    {
      original := Some(json);
      match json
      case Value(v) =>
        hash := Some(v);
        verdict := engine.accepts(jsonExpression, v);
      case Text(s) =>
        match engine.parse(s)
        case Parsed(v) =>
          hash := Some(v);
          verdict := engine.accepts(jsonExpression, v);
        case ParseError(message) =>
          notParsable := Some(message);
          verdict := false;
    }

    /** `failure_message`: the "Couldn't parse" form exactly when a parse error is recorded. */
    method FailureMessage() returns (f: PatternFailure<J>)
      requires Valid() && original.Some?
      ensures f.CouldNotParse? <==> notParsable.Some?
      ensures f.CouldNotParse? ==> f == CouldNotParse(original.value, notParsable.value)
      ensures f.GotDocument? ==> f == GotDocument(original.value, hash.value)
    {
      if notParsable.Some? {
        f := CouldNotParse(original.value, notParsable.value);
      } else {
        f := GotDocument(original.value, hash.value);
      }
    }
  }

  /** `match_json_expression(pattern)`. */
  method MatchJsonExpression<P, J>(pattern: P, engine: Engine<P, J>) returns (m: JsonPatternMatcher<P, J>)
    ensures fresh(m) && m.Valid()
    ensures m.jsonExpression == pattern && m.engine == engine && m.original == None
  {
    m := new JsonPatternMatcher(pattern, engine);
  }

  // ---------------------------------------------------------------------------
  // RequestMatcher

  /** `RequestMatcher#failure_message`, without the request dump. */
  datatype RequestFailure =
    | NoRequestMatched
    | AcceptNotJson(accept: Option<string>)
    | RequestBodyMismatch

  class RequestMatcher<P, J> {
    const jsonExpression: P
    const engine: Engine<P, J>
    var request: Option<Signature>  // @request
    var body: Option<J>             // @body
    var accept: Option<string>      // @accept
    var isJson: bool                // @is_json
    var jsonMatch: bool             // @json_match

    constructor (jsonExpression: P, engine: Engine<P, J>)
      ensures this.jsonExpression == jsonExpression && this.engine == engine
      ensures request == None && body == None && accept == None && !isJson && !jsonMatch
    {
      this.jsonExpression := jsonExpression;
      this.engine := engine;
      request, body, accept := None, None, None;
      isJson, jsonMatch := false, false;
    }

    method DoesNotMatch(requestPattern: Signature -> bool) returns (o: Outcome)
      ensures o == Raised(InvertedMatching)
    {
      o := Raised(InvertedMatching);
    }

    /**
      `matches?`: find the first recorded request that the request pattern
      accepts; with none, the verdict is `false`. Otherwise parse its body
      (a parse error is raised) and require a JSON Accept header and a body
      that satisfies the pattern.
     */
    method Matches(requestPattern: Signature -> bool, recorded: seq<Signature>) returns (o: Outcome)
      modifies this
      ensures var first := FirstAccepted(recorded, requestPattern);
        && request == (if first.Some? then Some(recorded[first.value]) else None)
        && (first.None? ==>
              o == Returned(false)
              && body == old(body) && accept == old(accept)
              && isJson == old(isJson) && jsonMatch == old(jsonMatch))
      ensures request.Some? && engine.parse(request.value.body).ParseError? ==>
        o == Raised(engine.parse(request.value.body).message)
        && body == old(body) && accept == old(accept)
        && isJson == old(isJson) && jsonMatch == old(jsonMatch)
      ensures request.Some? && engine.parse(request.value.body).Parsed? ==>
        var document := engine.parse(request.value.body).value;
        && body == Some(document)
        && accept == Lookup(request.value.headers, AcceptHeader)
        && isJson == AcceptIsJson(accept)
        && jsonMatch == engine.accepts(jsonExpression, document)
        && o == Returned(isJson && jsonMatch)
    {
      request := None;
      var i := 0;
      while i < |recorded|
        invariant 0 <= i <= |recorded|
        invariant request == None
        invariant forall j :: 0 <= j < i ==> !requestPattern(recorded[j])
      {
        if requestPattern(recorded[i]) {
          request := Some(recorded[i]);
          break;
        }
        i := i + 1;
      }
      if request.None? {
        return Returned(false);
      }

      match engine.parse(request.value.body)
      case ParseError(message) =>
        return Raised(message);
      case Parsed(document) =>
        body := Some(document);
        accept := Lookup(request.value.headers, AcceptHeader);
        isJson := AcceptIsJson(accept);
        jsonMatch := engine.accepts(jsonExpression, document);
        o := Returned(isJson && jsonMatch);
    }

    /**
      `failure_message` as written: `@request.nil? || @request.empty?`. With
      no request it reports "No request matched"; with a request, `empty?`
      is called on the recorded signature, which has no such method, so the
      call raises before any other failure can be reported.
     */
    method FailureMessage() returns (f: Report<RequestFailure>)
      ensures request.None? ==> f == Report(NoRequestMatched)
      ensures request.Some? ==> f == ReportRaised(NoEmptyMethodError)
    {
      if request.None? {
        f := Report(NoRequestMatched);
      } else {
        f := ReportRaised(NoEmptyMethodError);
      }
    }

    /**
      `failure_message` as evidently intended, testing only `@request.nil?`:
      no request first, then a non-JSON Accept header, then the body. Every
      report about a found request shows it with `show_request`, whose header
      formatting raises on a request without headers.
     */
    method IntendedFailureMessage() returns (f: Report<RequestFailure>)
      ensures f == Report(NoRequestMatched) <==> request.None?
      ensures f.ReportRaised? <==> request.Some? && request.value.headers == []
      ensures f.ReportRaised? ==> f.error == Dalziel.EmptyHeadersError
      ensures f.Report? && f.failure.AcceptNotJson? <==>
        request.Some? && request.value.headers != [] && !isJson
      ensures f.Report? && f.failure.AcceptNotJson? ==> f.failure.accept == accept
      ensures f == Report(RequestBodyMismatch) <==>
        request.Some? && request.value.headers != [] && isJson
    {
      if request.None? {
        f := Report(NoRequestMatched);
      } else if Dalziel.FormatHeaders(request.value.headers).None? {
        f := ReportRaised(Dalziel.EmptyHeadersError);
      } else if !isJson {
        f := Report(AcceptNotJson(accept));
      } else {
        f := Report(RequestBodyMismatch);
      }
    }
  }

  /** `match_json_request(pattern)`. */
  method MatchJsonRequest<P, J>(pattern: P, engine: Engine<P, J>) returns (m: RequestMatcher<P, J>)
    ensures fresh(m)
    ensures m.jsonExpression == pattern && m.engine == engine && m.request == None
  {
    m := new RequestMatcher(pattern, engine);
  }

  // ---------------------------------------------------------------------------
  // ResponseMatcher

  /** `ResponseMatcher#failure_message`, without the response dump. */
  datatype ResponseFailure =
    | ContentTypeNotJson(contentType: Option<string>)
    | UnexpectedStatus(expected: int, actual: int)
    | ResponseBodyMismatch

  class ResponseMatcher<P, J> {
    const jsonExpression: P
    const engine: Engine<P, J>
    var expectedStatus: int         // @status
    var response: Option<Response>  // @response
    var body: Option<J>             // @body
    var contentType: Option<string> // @content_type
    var isJson: bool                // @is_json
    var jsonMatch: bool             // @json_match
    var statusMatch: bool           // @status_match

    /** A new matcher expects status 200 and has seen no response. */
    constructor (jsonExpression: P, engine: Engine<P, J>)
      ensures this.jsonExpression == jsonExpression && this.engine == engine
      ensures expectedStatus == DefaultStatus
      ensures response == None && body == None && contentType == None
      ensures !isJson && !jsonMatch && !statusMatch
    {
      this.jsonExpression := jsonExpression;
      this.engine := engine;
      expectedStatus := DefaultStatus;
      response, body, contentType := None, None, None;
      isJson, jsonMatch, statusMatch := false, false, false;
    }

    /** `status(code)`: replace the expected status and return the same matcher. */
    method Status(code: int) returns (m: ResponseMatcher<P, J>)
      modifies this
      ensures m == this
      ensures expectedStatus == code
      ensures response == old(response) && body == old(body) && contentType == old(contentType)
      ensures isJson == old(isJson) && jsonMatch == old(jsonMatch) && statusMatch == old(statusMatch)
    {
      expectedStatus := code;
      m := this;
    }

    method DoesNotMatch(r: Response) returns (o: Outcome)
      ensures o == Raised(InvertedMatching)
    {
      o := Raised(InvertedMatching);
    }

    /**
      `matches?`: parse the body (a parse error is raised), then the verdict
      is the conjunction of the three checks: the status is the expected one,
      the Content-Type before its first `;` is JSON, the body satisfies the
      pattern.
     */
    method Matches(r: Response) returns (o: Outcome)
      modifies this
      ensures response == Some(r) && expectedStatus == old(expectedStatus)
      ensures engine.parse(r.body).ParseError? ==>
        o == Raised(engine.parse(r.body).message)
        && body == old(body) && contentType == old(contentType)
        && isJson == old(isJson) && jsonMatch == old(jsonMatch) && statusMatch == old(statusMatch)
      ensures engine.parse(r.body).Parsed? ==>
        var document := engine.parse(r.body).value;
        && body == Some(document)
        && contentType == Lookup(r.headers, ContentTypeHeader)
        && isJson == ContentTypeIsJson(contentType)
        && jsonMatch == engine.accepts(jsonExpression, document)
        && statusMatch == (expectedStatus == r.status)
        && o == Returned(statusMatch && isJson && jsonMatch)
    {
      response := Some(r);
      match engine.parse(r.body)
      case ParseError(message) =>
        o := Raised(message);
      case Parsed(document) =>
        body := Some(document);
        contentType := Lookup(r.headers, ContentTypeHeader);
        isJson := ContentTypeIsJson(contentType);
        jsonMatch := engine.accepts(jsonExpression, document);
        statusMatch := expectedStatus == r.status;
        o := Returned(statusMatch && isJson && jsonMatch);
    }

    /**
      `failure_message`: a non-JSON Content-Type comes first, a wrong status
      only after a JSON Content-Type, a body mismatch only when both were fine.
      Every report shows the response with `show_response`, whose header
      formatting raises on a response without headers.
     */
    method FailureMessage() returns (f: Report<ResponseFailure>)
      requires response.Some?
      ensures f.ReportRaised? <==> response.value.headers == []
      ensures f.ReportRaised? ==> f.error == Dalziel.EmptyHeadersError
      ensures f.Report? ==>
        && (f.failure.ContentTypeNotJson? <==> !isJson)
        && (f.failure.ContentTypeNotJson? ==> f.failure.contentType == contentType)
        && (f.failure.UnexpectedStatus? <==> isJson && !statusMatch)
        && (f.failure.UnexpectedStatus? ==>
              f.failure.expected == expectedStatus && f.failure.actual == response.value.status)
        && (f.failure == ResponseBodyMismatch <==> isJson && statusMatch)
    {
      if Dalziel.FormatHeaders(response.value.headers).None? {
        f := ReportRaised(Dalziel.EmptyHeadersError);
      } else if !isJson {
        f := Report(ContentTypeNotJson(contentType));
      } else if !statusMatch {
        f := Report(UnexpectedStatus(expectedStatus, response.value.status));
      } else {
        f := Report(ResponseBodyMismatch);
      }
    }
  }

  /** `match_json_response(pattern)`. */
  method MatchJsonResponse<P, J>(pattern: P, engine: Engine<P, J>) returns (m: ResponseMatcher<P, J>)
    ensures fresh(m)
    ensures m.jsonExpression == pattern && m.engine == engine
    ensures m.expectedStatus == DefaultStatus && m.response == None
  {
    m := new ResponseMatcher(pattern, engine);
  }
}
