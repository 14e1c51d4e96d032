/**
  What the matchers need from the JSON library and the pattern library, kept
  abstract: parsing text into a document (which may fail with a parser error)
  and deciding whether a document satisfies a pattern.
 */
module JsonEngine {

  /** `JSON.parse`: a document, or the message of the `JSON::ParserError` it raises. */
  datatype ParseResult<J> = Parsed(value: J) | ParseError(message: string)

  /** `JSON.parse` and `JsonExpressions::Matcher.new(pattern) =~ document`. */
  datatype Engine<!P, !J> = Engine(parse: string -> ParseResult<J>, accepts: (P, J) -> bool)

  /** What `match_json_expression` is given: JSON text, or an already parsed value. */
  datatype Input<J> = Text(text: string) | Value(value: J)

  /** How a matcher call ends: it returns a verdict, or it raises an error. */
  datatype Outcome = Returned(verdict: bool) | Raised(error: string)

  /** How a `failure_message` call ends: it reports a failure, or it raises an error. */
  datatype Report<F> = Report(failure: F) | ReportRaised(error: string)

  const InvertedMatching := "Inverted matching is not implemented with this matcher"
}
