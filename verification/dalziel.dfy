/** The two text helpers that the failure messages are built with. */
module Dalziel {
  import opened Options
  import opened Lines
  import opened Http

  const IndentPrefix := "    "

  /** Every line with the indentation put in front of it. */
  function Prefixed(lines: seq<string>): (r: seq<string>)
  {
    seq(|lines|, i requires 0 <= i < |lines| => IndentPrefix + lines[i])
  }

  /** Indented lines split back into themselves. */
  lemma PrefixedSplitJoin(lines: seq<string>)
    requires NoNewlines(lines)
    ensures Split(Join(Prefixed(lines))) == Prefixed(lines)
  {
    var indented := Prefixed(lines);
    forall i | 0 <= i < |indented|
      ensures '\n' !in indented[i]
    {
      assert indented[i] == IndentPrefix + lines[i];
      assert '\n' !in IndentPrefix;
    }
    assert indented == [] || |indented[|indented| - 1]| >= 4;
    SplitJoin(indented);
  }

  /**
    `Dalziel.indent`: split on newlines, indent every line by four spaces,
    join again. The indented text has as many lines as the text, and its
    line i is four spaces followed by line i of the text.
   */
  function Indent(s: string): (r: string)
    ensures |Split(r)| == |Split(s)|
    ensures forall i :: 0 <= i < |Split(s)| ==> Split(r)[i] == "    " + Split(s)[i]
  {
    PrefixedSplitJoin(Split(s));
    Join(Prefixed(Split(s)))
  }

  /** The length of the longest header name: `headers.keys.map(&:size).max`. */
  function MaxNameLength(headers: Headers): (m: nat)
    requires |headers| > 0
    ensures forall i :: 0 <= i < |headers| ==> |headers[i].name| <= m
    ensures exists i :: 0 <= i < |headers| && |headers[i].name| == m
  {
    if |headers| == 1 then |headers[0].name|
    else
      var rest := MaxNameLength(headers[1..]);
      if |headers[0].name| < rest then rest else |headers[0].name|
  }

  function Spaces(n: nat): (r: string)
    ensures |r| == n && forall i :: 0 <= i < n ==> r[i] == ' '
  {
    if n == 0 then "" else " " + Spaces(n - 1)
  }

  /** `"%-Ns" % s`: s left-justified in a field of width N, never cut short. */
  function PadRight(s: string, width: nat): (r: string)
    ensures |r| == if |s| < width then width else |s|
    ensures r[..|s|] == s
    ensures forall i :: |s| <= i < |r| ==> r[i] == ' '
  {
    if |s| < width then s + Spaces(width - |s|) else s
  }

  /**
    `line` shows header `h` with its value starting at `column`: the name,
    a colon, at least one space, the spaces up to `column`, then the value.
   */
  predicate LaidOut(line: string, h: Header, column: nat)
  {
    && |h.name| + 2 <= column
    && |line| == column + |h.value|
    && line[..|h.name|] == h.name
    && line[|h.name|] == ':'
    && (forall k :: |h.name| < k < column ==> line[k] == ' ')
    && line[column..] == h.value
  }

  /** `"%-#{width}s %s" % ["#{k}:", v]`: the value starts one past the padded name. */
  function HeaderLine(h: Header, width: nat): (line: string)
    requires |h.name| + 1 <= width
    ensures LaidOut(line, h, width + 1)
  {
    var key := h.name + ":";
    var padded := PadRight(key, width);
    assert padded[..|h.name|] == key[..|h.name|] == h.name;
    padded + " " + h.value
  }

  /** What formatting an empty header list raises: the maximum of no key lengths is nil. */
  const EmptyHeadersError := "NoMethodError: undefined method `+' for nil"

  /** The lines of `headers` with every value at `column`, one per header and in order. */
  function LinesAtColumn(headers: Headers, column: nat): (lines: seq<string>)
    requires forall i :: 0 <= i < |headers| ==> |headers[i].name| + 2 <= column
    ensures |lines| == |headers|
    ensures forall i :: 0 <= i < |headers| ==> LaidOut(lines[i], headers[i], column)
  {
    if headers == [] then []
    else [HeaderLine(headers[0], column - 1)] + LinesAtColumn(headers[1..], column)
  }

  /** The column where every value starts: past the longest name, its colon and two spaces. */
  function ValueColumn(headers: Headers): (column: nat)
    requires |headers| > 0
    ensures forall i :: 0 <= i < |headers| ==> |headers[i].name| + 3 <= column
  {
    MaxNameLength(headers) + 3
  }

  /** The header lines, one per header and in order, every value starting at the same column. */
  function HeaderLines(headers: Headers): (lines: seq<string>)
    requires |headers| > 0
    ensures |lines| == |headers|
    ensures forall i :: 0 <= i < |headers| ==> LaidOut(lines[i], headers[i], ValueColumn(headers))
  {
    LinesAtColumn(headers, ValueColumn(headers))
  }

  /**
    `Dalziel.format_headers`. The maximum of no key lengths is nil and adding
    two to it raises, so an empty header list yields `None`.
   */
  function FormatHeaders(headers: Headers): (r: Option<string>)
    ensures r.None? <==> headers == []
  {
    if headers == [] then None else Some(Join(HeaderLines(headers)))
  }

  /** A laid-out line holds a newline only if the header's name or value does. */
  lemma LaidOutWithoutNewline(line: string, h: Header, column: nat)
    requires LaidOut(line, h, column)
    requires '\n' !in h.name && '\n' !in h.value
    ensures '\n' !in line
  {
  }

  /**
    When no header name or value holds a newline, the formatted text splits
    back into exactly the header lines: one line per header.
   */
  lemma FormatHeadersLines(headers: Headers)
    requires headers != []
    requires forall i :: 0 <= i < |headers| ==> '\n' !in headers[i].name && '\n' !in headers[i].value
    ensures Split(FormatHeaders(headers).value) == HeaderLines(headers)
  {
    var lines := HeaderLines(headers);
    var column := ValueColumn(headers);
    forall i | 0 <= i < |lines|
      ensures '\n' !in lines[i]
    {
      LaidOutWithoutNewline(lines[i], headers[i], column);
    }
    assert |lines[|lines| - 1]| >= 2;
    SplitJoin(lines);
  }
}
