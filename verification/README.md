# Dalziel matchers, modelled in Dafny

Dalziel provides three test matchers for JSON APIs:

- `match_json_expression` checks a JSON text or an already parsed value against a structural pattern.
- `match_json_request` finds the first outgoing request recorded by the HTTP mock that a request pattern accepts. It then checks that request's Accept header and body.
- `match_json_response` checks a response's status (200 unless `status(code)` says otherwise), its Content-Type and its body.

On failure each matcher builds a message with two text helpers: `Dalziel.indent` and `Dalziel.format_headers`.

The model has these parts:

- `Lines` gives Ruby's `split("\n")`, which drops trailing empty fields, and `join("\n")`. It proves that splitting undoes joining for exactly the lines a split can produce.
- `Dalziel` holds `Indent` and `FormatHeaders`. Their per-line properties are proved: every line is indented, and every header value starts at the same column.
- `MediaType` models `=~ /\bjson$/`: a word boundary before `json` (ASCII word characters, see "## Left out"), and the end of the text or a newline after it, since Ruby's `$` matches at every line end. The leftmost match index is what `=~` returns. On one line the test is proved equal to "ends in `json`, with no word character before it". For Content-Type the test is applied only to the text before the first `;`, and that is proved to ignore parameters.
- `Http` holds headers as an ordered list, recorded request signatures and responses.
- `JsonEngine` stands for the external JSON parser and pattern library. Parsing is a function that returns a document or a parser error message. Matching is a predicate on a pattern and a document.
- `Matchers` has one class per matcher, with the source's instance variables as fields. `matches?` sets them step by step. `RequestMatcher.Matches` keeps the source's scan with early exit over the recorded requests. `failure_message` reads the fields back, in the source's priority order. It raises where the source raises: for a request or response without headers, and, in the request matcher as written, for every found request (see "## Findings").
- `Expectations` holds client methods that run a fresh matcher the way `expect(x).to matcher` does. They state the end-to-end verdicts and failure reasons. `ExpectRequest` uses the request matcher's intended failure message; `ExpectRequestAsWritten` the one the source has.

## Model

| member | source | states |
|---|---|---|
| Lines.Fields | lib/dalziel.rb:13 | cutting at every newline gives at least one field, and no field holds a newline |
| Lines.DropTrailingEmpty | lib/dalziel.rb:13 | the result is a prefix of the fields that does not end in an empty field; everything dropped is empty |
| Lines.Split | lib/dalziel.rb:13 | `split("\n")` gives lines without newlines whose last line is not empty |
| Lines.Join | lib/dalziel.rb:13 | cutting the joined text at every newline gives back any non-empty list of newline-free lines |
| Lines.JoinFields | lib/dalziel.rb:13 | joining the fields with newlines gives the text back |
| Lines.SplitDropsOnlyTrailingNewlines | lib/dalziel.rb:13 | the joined split lines are a prefix of the text, and everything after that prefix is a newline |
| Lines.SplitJoin | lib/dalziel.rb:13 | splitting the joined lines gives the lines back, for every newline-free list whose last line is not empty |
| Dalziel.PrefixedSplitJoin | lib/dalziel.rb:13 | newline-free lines, each behind four spaces and joined, split back into exactly those indented lines |
| Dalziel.Indent | lib/dalziel.rb:12-14 | the indented text has as many lines as the input; line i is four spaces followed by input line i |
| Dalziel.MaxNameLength | lib/dalziel.rb:8 | the result is at least the length of every header name and equals the length of some header name |
| Dalziel.PadRight | lib/dalziel.rb:9 | `%-Ns` pads the text with spaces to width N and never cuts it short |
| Dalziel.HeaderLine | lib/dalziel.rb:9 | a line is the name, a colon, at least one space, then the value starting at column width+1 |
| Dalziel.LinesAtColumn | lib/dalziel.rb:9 | one line per header, in order, each with its value at the given column |
| Dalziel.ValueColumn | lib/dalziel.rb:8-9 | the value column lies at least three past every name: its colon, the padding space and the separating space |
| Dalziel.HeaderLines | lib/dalziel.rb:7-9 | one line per header, in order, and every value starts at the same column (longest name + 3) |
| Dalziel.FormatHeaders | lib/dalziel.rb:7-9 | an empty header list has no maximum key length and raises (None); any other list gives text |
| Dalziel.LaidOutWithoutNewline | lib/dalziel.rb:9 | a header line holds a newline only if the header's name or value does |
| Dalziel.FormatHeadersLines | lib/dalziel.rb:7-9 | if no name or value holds a newline, the formatted text splits into exactly the header lines |
| Http.Lookup | lib/dalziel.rb:137 | the lookup is nil exactly when no header has the name; otherwise the result is the value of a header with that name |
| MediaType.FirstJsonAt | lib/dalziel.rb:139 | the result is the leftmost index from `from` where `/\bjson$/` matches, or None when there is no match |
| MediaType.MatchJson | lib/dalziel.rb:139 | `=~` gives the leftmost match index, and nil exactly when no index matches |
| MediaType.JsonMediaTypeOnOneLine | lib/dalziel.rb:139 | on text without newlines, the test holds exactly when the text ends in `json` with no word character before it |
| MediaType.AcceptIsJsonOnOneLine | lib/dalziel.rb:137-139 | a one-line Accept header passes exactly when its whole value ends in `json` with no word character before; a missing header never passes |
| MediaType.ContentTypeIsJsonOnOneLine | lib/dalziel.rb:186-188 | a one-line Content-Type passes exactly when the text before its first `;` ends in `json` with no word character before; a missing header never passes |
| MediaType.BeforeSemicolon | lib/dalziel.rb:188 | `split(";", 2).first` is the prefix before the first semicolon: it holds no `;` and is followed by `;` or the end |
| MediaType.BeforeSemicolonOfParameters | lib/dalziel.rb:188 | the first field of `type;params` is `type` when `type` has no semicolon |
| MediaType.BeforeSemicolonOfPlain | lib/dalziel.rb:188 | text without a semicolon is its own first field |
| MediaType.ContentTypeIgnoresParameters | lib/dalziel.rb:188 | the Content-Type test gives the same verdict with or without `;parameters` |
| MediaType.JsonMediaTypesAccepted | lib/dalziel.rb:139 | `application/json` and `application/vnd.api+json` pass |
| MediaType.NonJsonMediaTypesRejected | lib/dalziel.rb:139 | `application/jsonp`, `application/xjson` and `application/JSON` fail |
| MediaType.ParametersInContentType | lib/dalziel.rb:188 | `application/json; charset=utf-8` passes the Content-Type test |
| MediaType.ParametersInAccept | lib/dalziel.rb:139 | `application/json; charset=utf-8` fails the Accept test, which does not cut at `;` |
| Matchers.FirstAccepted | lib/dalziel.rb:126-133 | the result is the first recorded signature, in registry order, that the request pattern accepts, or None when it accepts none |
| Matchers.MatchJsonExpression | lib/dalziel.rb:73-75 | gives a new pattern matcher for the pattern that has seen no input |
| Matchers.JsonPatternMatcher.constructor | lib/dalziel.rb:81-83 | keeps the pattern and starts with no input, no document and no parse error |
| Matchers.JsonPatternMatcher.DoesNotMatch | lib/dalziel.rb:85-87 | inverted use always raises |
| Matchers.JsonPatternMatcher.Matches | lib/dalziel.rb:89-96 | text is parsed and a value is matched as it is; a parse error gives false, is recorded and is not raised; earlier errors stay recorded |
| Matchers.JsonPatternMatcher.FailureMessage | lib/dalziel.rb:98-107 | uses the "Couldn't parse" form exactly when a parse error is recorded, and otherwise shows the document |
| Matchers.MatchJsonRequest | lib/dalziel.rb:45-47 | gives a new request matcher for the pattern that has no request |
| Matchers.RequestMatcher.constructor | lib/dalziel.rb:122-124 | keeps the pattern and starts with no request |
| Matchers.RequestMatcher.DoesNotMatch | lib/dalziel.rb:145-147 | inverted use always raises |
| Matchers.RequestMatcher.Matches | lib/dalziel.rb:126-143 | takes the first accepted recorded request. With none, it returns false. Otherwise it raises on an unparsable body, or returns "Accept is JSON and the body matches" |
| Matchers.RequestMatcher.FailureMessage | lib/dalziel.rb:149-157 | as written: "No request matched" without a request; with a request, `empty?` on the signature raises NoMethodError |
| Matchers.RequestMatcher.IntendedFailureMessage | lib/dalziel.rb:149-161 | testing only nil: "No request matched" exactly when there is no request, then a non-JSON Accept header, then a body mismatch; a request without headers raises in `show_request` |
| Matchers.MatchJsonResponse | lib/dalziel.rb:60-62 | gives a new response matcher that expects status 200 |
| Matchers.ResponseMatcher.constructor | lib/dalziel.rb:178-181 | keeps the pattern and expects status 200 |
| Matchers.ResponseMatcher.Status | lib/dalziel.rb:218-221 | replaces the expected status, returns the same matcher and changes nothing else |
| Matchers.ResponseMatcher.DoesNotMatch | lib/dalziel.rb:195-197 | inverted use always raises |
| Matchers.ResponseMatcher.Matches | lib/dalziel.rb:183-193 | raises on an unparsable body. Otherwise it returns the conjunction of three checks: status equal, Content-Type JSON before its `;`, body matches |
| Matchers.ResponseMatcher.FailureMessage | lib/dalziel.rb:199-216 | raises exactly when the response has no headers (`show_response` formats them); otherwise reports a non-JSON Content-Type first, a wrong status only after a JSON Content-Type, and a body mismatch only when both were fine |
| Expectations.ExpectExpression | lib/dalziel.rb:89-107 | never ends in an error. Unparsable text fails in the "Couldn't parse" form. Otherwise it passes exactly when the document matches |
| Expectations.ExpectRequestAsWritten | lib/dalziel.rb:126-157 | with no accepted request it fails with "No request matched"; a found request passes exactly when Accept is JSON and the body matches, and otherwise the expectation raises NoMethodError |
| Expectations.ExpectRequest | lib/dalziel.rb:126-161 | with the intended message: no accepted request fails with "No request matched"; a found request passes exactly when Accept is JSON and the body matches; a bad Accept is reported ahead of the body; a request without headers raises |
| Expectations.HtmlAcceptCounterexample | lib/dalziel.rb:150-153 | a found request with `Accept: text/html` raises as written and reports the Accept header as intended |
| Expectations.ExpectResponse | lib/dalziel.rb:178-221 | passes exactly when the status is the expected one (200 by default), the Content-Type is JSON and the body matches. A failure names the Content-Type, then the status, then the body; a response without headers raises |
| Expectations.ReusedPatternMatcher | lib/dalziel.rb:89-99 | a matcher reused after a parse error still reports "Couldn't parse", now with the new input |

## Left out

- JSON parsing and `JSON.pretty_generate` come from an external library. Parsing is a function value in `Engine` that returns a document or a parser error message. The pretty-printed text is not modelled; a failure carries the document itself.
- The matching semantics of `JsonExpressions::Matcher` and its `last_error` come from an external library. Matching is the predicate `Engine.accepts`, and the explanation text is not modelled.
- The mock's global request registry is not modelled; it is a parameter (the recorded signatures, in registry order). The request pattern is a predicate on signatures. `stub_json_request` and `stub_request` are mocking setup and are not modelled.
- The text of `show_request`, `show_response`, Ruby's `inspect`, and the `%` formatting of messages other than the header padding are not modelled. Failures are datatypes that carry the values those messages show.
- Matchers.JsonPatternMatcher.FailureMessage: the type word in "Got the following %s" (`JSON`, or the Ruby class name of a value) is not modelled. The failure carries the original input instead.
- The `@payload_matcher ||=` and `@matcher ||=` memoisation has no observable effect and is not modelled.
- The RSpec configuration hook (lib/dalziel.rb:228-232) is framework wiring and is not modelled.
- MediaType.IsWordChar: the word boundary `\b` is decided with ASCII word characters (letters, digits, underscore). Ruby decides `\b` by the string's encoding, so in UTF-8 text a non-ASCII letter before `json` (as in `éjson`) blocks the match in Ruby but not in the model.
- Http.Signature: headers are always a list and the body is always text. A signature with nil headers or a nil body, where the source would raise, is not modelled.
- Http.Lookup: a header hash has unique keys. A list with repeated names gives the first value.
- Http.Lookup: names are compared exactly. The header hash of a Rack test response finds `Content-Type` case-insensitively, so a response whose header is spelled `content-type` passes the Content-Type test in Ruby and has no Content-Type in the model.
- Matchers.ResponseMatcher.Status: the expected status is an integer. A code of another Ruby type, which never equals a response status, is not modelled.
- The `attr_reader`s for `request` and `body` on `JSONPatternMatcher` are never assigned there, and are not modelled.

## Findings

| source | as written | input that shows it | evidently intended | confidence | as-written member | corrected member |
|---|---|---|---|---|---|---|
| lib/dalziel.rb:150 | `@request.nil? \|\| @request.empty?` calls `empty?` on the found request signature, which defines no such method, so `failure_message` raises NoMethodError for every found request | a recorded request accepted by the request pattern, with `Accept: text/html` and body `{}` (Expectations.HtmlAcceptCounterexample; Expectations.ExpectRequestAsWritten for every found request) | test only `@request.nil?`, then report a non-JSON Accept header ahead of a body mismatch | not executed; rests on the mock library's request signature having no `empty?` method | Matchers.RequestMatcher.FailureMessage | Matchers.RequestMatcher.IntendedFailureMessage |
