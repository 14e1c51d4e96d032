/**
  The HTTP values the matchers look at: header lists, the request signatures
  that the request mock records, and responses.
 */
module Http {
  import opened Options

  /** One header. A header hash keeps its insertion order, so a list of headers does too. */
  datatype Header = Header(name: string, value: string)

  type Headers = seq<Header>

  /** `headers[name]`: the value of the first header with that name, `None` (nil) when there is none. */
  function Lookup(headers: Headers, name: string): (r: Option<string>)
    ensures r.None? <==> forall i :: 0 <= i < |headers| ==> headers[i].name != name
    ensures r.Some? ==> exists i :: 0 <= i < |headers| && headers[i] == Header(name, r.value)
  {
    if |headers| == 0 then None
    else if headers[0].name == name then Some(headers[0].value)
    else Lookup(headers[1..], name)
  }

  /** A request as the mock records it. */
  datatype Signature = Signature(verb: string, uri: string, headers: Headers, body: string)

  /** A response as the application under test returns it. */
  datatype Response = Response(status: int, headers: Headers, body: string)
}
