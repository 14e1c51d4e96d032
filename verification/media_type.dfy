/**
  The JSON media-type test `=~ /\bjson$/`. A match is `json` with a word
  boundary in front of it (the start of the text, or a character that is not
  a word character) and the end of a line behind it (the end of the text, or
  a newline: in Ruby `$` matches before every newline). The result of `=~`
  is the index of the leftmost match.
 */
module MediaType {
  import opened Options

  /** Ruby's `\w`: an ASCII letter, digit or underscore. */
  predicate IsWordChar(c: char)
  {
    ('a' <= c <= 'z') || ('A' <= c <= 'Z') || ('0' <= c <= '9') || c == '_'
  }

  /** `/\bjson$/` matches `s` at index `i`. */
  predicate JsonAt(s: string, i: int)
  {
    && 0 <= i && i + 4 <= |s|
    && s[i..i + 4] == "json"
    && (i == 0 || !IsWordChar(s[i - 1]))
    && (i + 4 == |s| || s[i + 4] == '\n')
  }

  /** The leftmost match at or after `from`. */
  function FirstJsonAt(s: string, from: nat): (r: Option<nat>)
    ensures r.Some? ==> from <= r.value && JsonAt(s, r.value)
    ensures r.Some? ==> forall j :: from <= j < r.value ==> !JsonAt(s, j)
    ensures r.None? ==> forall j :: from <= j ==> !JsonAt(s, j)
    decreases |s| - from
  {
    if from + 4 > |s| then None
    else if JsonAt(s, from) then Some(from)
    else FirstJsonAt(s, from + 1)
  }

  /** `s =~ /\bjson$/`: the index of the leftmost match, nil when there is none. */
  function MatchJson(s: string): (r: Option<nat>)
    ensures r.Some? ==> JsonAt(s, r.value) && forall j :: 0 <= j < r.value ==> !JsonAt(s, j)
    ensures r.None? <==> forall j :: !JsonAt(s, j)
  {
    FirstJsonAt(s, 0)
  }

  predicate IsJsonMediaType(s: string)
  {
    MatchJson(s).Some?
  }

  /** The plain reading of the test: the text ends in `json`, and the character before it is no word character. */
  predicate EndsInJsonWord(s: string)
  {
    |s| >= 4 && s[|s| - 4..] == "json" && (|s| == 4 || !IsWordChar(s[|s| - 5]))
  }

  /** On a single line the regular expression means exactly the plain reading. */
  lemma JsonMediaTypeOnOneLine(s: string)
    requires '\n' !in s
    ensures IsJsonMediaType(s) <==> EndsInJsonWord(s)
  {
    if EndsInJsonWord(s) {
      assert JsonAt(s, |s| - 4);
    }
    if IsJsonMediaType(s) {
      var i := MatchJson(s).value;
      assert i + 4 == |s|;
    }
  }

  /** `str.split(";", 2).first`: the text before the first semicolon. */
  function BeforeSemicolon(s: string): (r: string)
    ensures r <= s
    ensures ';' !in r
    ensures |r| < |s| ==> s[|r|] == ';'
  {
    if s == [] || s[0] == ';' then "" else [s[0]] + BeforeSemicolon(s[1..])
  }

  /**
    The Content-Type test: `content_type.to_s.split(";", 2).first =~ /\bjson$/`.
    A missing header is nil, whose `to_s` is empty; an empty text has no first
    field (nil), which no more matches than the empty text does.
   */
  predicate ContentTypeIsJson(contentType: Option<string>)
  {
    var text := if contentType.Some? then contentType.value else "";
    IsJsonMediaType(BeforeSemicolon(text))
  }

  /** The Accept test: `accept =~ /\bjson$/`, with nil (no header) never matching. */
  predicate AcceptIsJson(accept: Option<string>)
  {
    accept.Some? && IsJsonMediaType(accept.value)
  }

  /**
    The Accept test on a one-line header: the whole value ends in `json`
    with no word character before it. A missing header never passes.
   */
  lemma AcceptIsJsonOnOneLine(accept: Option<string>)
    requires accept.Some? ==> '\n' !in accept.value
    ensures AcceptIsJson(accept) <==> accept.Some? && EndsInJsonWord(accept.value)
  {
    if accept.Some? {
      JsonMediaTypeOnOneLine(accept.value);
    }
  }

  /**
    The Content-Type test on a one-line header: the text before the first
    `;` ends in `json` with no word character before it. A missing header
    never passes.
   */
  lemma ContentTypeIsJsonOnOneLine(contentType: Option<string>)
    requires contentType.Some? ==> '\n' !in contentType.value
    ensures ContentTypeIsJson(contentType) <==>
      contentType.Some? && EndsInJsonWord(BeforeSemicolon(contentType.value))
  {
    var text := if contentType.Some? then contentType.value else "";
    assert '\n' !in BeforeSemicolon(text) by {
      forall k | 0 <= k < |BeforeSemicolon(text)|
        ensures BeforeSemicolon(text)[k] != '\n'
      {
        assert BeforeSemicolon(text)[k] == text[k];
      }
    }
    JsonMediaTypeOnOneLine(BeforeSemicolon(text));
  }

  lemma {:induction false} BeforeSemicolonOfParameters(mediaType: string, parameters: string)
    requires ';' !in mediaType
    ensures BeforeSemicolon(mediaType + ";" + parameters) == mediaType
    decreases |mediaType|
  {
    var s := mediaType + ";" + parameters;
    if mediaType != [] {
      assert s[1..] == mediaType[1..] + ";" + parameters;
      BeforeSemicolonOfParameters(mediaType[1..], parameters);
      assert [mediaType[0]] + mediaType[1..] == mediaType;
    }
  }

  /** Text without a semicolon is its own first field. */
  lemma BeforeSemicolonOfPlain(mediaType: string)
    requires ';' !in mediaType
    ensures BeforeSemicolon(mediaType) == mediaType
  {
  }

  /** Parameters after the first semicolon play no part in the Content-Type test. */
  lemma ContentTypeIgnoresParameters(mediaType: string, parameters: string)
    requires ';' !in mediaType
    ensures ContentTypeIsJson(Some(mediaType + ";" + parameters)) == ContentTypeIsJson(Some(mediaType))
  {
    BeforeSemicolonOfParameters(mediaType, parameters);
    BeforeSemicolonOfPlain(mediaType);
  }

  /** `application/json`, and a vendor type ending in `+json`, pass the test. */
  lemma JsonMediaTypesAccepted()
    ensures IsJsonMediaType("application/json")
    ensures IsJsonMediaType("application/vnd.api+json")
  {
    assert JsonAt("application/json", 12);
    assert JsonAt("application/vnd.api+json", 20);
  }

  /** `json` must end the line, stand after a word boundary and be written in lower case. */
  lemma NonJsonMediaTypesRejected()
    ensures !IsJsonMediaType("application/jsonp")
    ensures !IsJsonMediaType("application/xjson")
    ensures !IsJsonMediaType("application/JSON")
  {
    JsonMediaTypeOnOneLine("application/jsonp");
    JsonMediaTypeOnOneLine("application/xjson");
    JsonMediaTypeOnOneLine("application/JSON");
  }

  /** A charset parameter passes the Content-Type test ... */
  lemma ParametersInContentType()
    ensures ContentTypeIsJson(Some("application/json; charset=utf-8"))
  {
    var mediaType, parameters := "application/json", " charset=utf-8";
    assert mediaType + ";" + parameters == "application/json; charset=utf-8";
    BeforeSemicolonOfParameters(mediaType, parameters);
    JsonMediaTypesAccepted();
  }

  /** ... but fails the Accept test, which does not cut the text at `;`. */
  lemma ParametersInAccept()
    ensures !AcceptIsJson(Some("application/json; charset=utf-8"))
  {
    JsonMediaTypeOnOneLine("application/json; charset=utf-8");
  }
}
