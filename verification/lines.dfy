/**
  Splitting text into lines and joining lines back, as Ruby's `String#split("\n")`
  and `Array#join("\n")` do. A split first cuts the text at every newline
  (`Fields`) and then drops the empty fields at the end (`Split`); a leading or
  inner empty field is kept.
 */
module Lines {

  /** The text between consecutive newlines, empty fields included. */
  function Fields(s: string): (r: seq<string>)
    ensures |r| >= 1
    ensures forall i :: 0 <= i < |r| ==> '\n' !in r[i]
    decreases |s|
  {
    if s == [] then [""]
    else if s[0] == '\n' then [""] + Fields(s[1..])
    else
      var rest := Fields(s[1..]);
      [[s[0]] + rest[0]] + rest[1..]
  }

  predicate NoNewlines(lines: seq<string>)
  {
    forall i :: 0 <= i < |lines| ==> '\n' !in lines[i]
  }

  /**
    The lines separated by single newlines. Cutting the joined text at every
    newline gives back any non-empty list of lines that hold no newline.
   */
  function Join(lines: seq<string>): (r: string)
    ensures |lines| >= 1 && NoNewlines(lines) ==> Fields(r) == lines
  {
    if |lines| == 0 then ""
    else if |lines| == 1 then
      FieldsOfLine(lines[0]);
      lines[0]
    else
      var rest := Join(lines[1..]);
      FieldsAfterLine(lines[0], rest);
      assert [lines[0]] + lines[1..] == lines;
      lines[0] + "\n" + rest
  }

  /** `fs` without the empty fields at its end. */
  function DropTrailingEmpty(fs: seq<string>): (r: seq<string>)
    ensures r <= fs
    ensures r == [] || r[|r| - 1] != ""
    ensures forall i :: |r| <= i < |fs| ==> fs[i] == ""
  {
    if |fs| > 0 && fs[|fs| - 1] == "" then DropTrailingEmpty(fs[..|fs| - 1]) else fs
  }

  /** Ruby's `s.split("\n")`: no line holds a newline and the last line is not empty. */
  function Split(s: string): (r: seq<string>)
    ensures forall i :: 0 <= i < |r| ==> '\n' !in r[i]
    ensures r == [] || r[|r| - 1] != ""
  {
    DropTrailingEmpty(Fields(s))
  }

  /** The lines that `Split` can return: no newline inside, no empty line at the end. */
  predicate SplitShaped(lines: seq<string>)
  {
    NoNewlines(lines) && (lines == [] || lines[|lines| - 1] != "")
  }

  /** Cutting at every newline loses nothing: joining the fields gives the text back. */
  lemma {:induction false} JoinFields(s: string)
    ensures Join(Fields(s)) == s
    decreases |s|
  {
    if s == [] {
    } else if s[0] == '\n' {
      JoinFields(s[1..]);
      assert Fields(s)[1..] == Fields(s[1..]);
    } else {
      var rest := Fields(s[1..]);
      JoinFields(s[1..]);
      var fs := Fields(s);
      assert fs[0] == [s[0]] + rest[0];
      if |rest| == 1 {
        assert Join(fs) == [s[0]] + rest[0];
      } else {
        assert fs[1..] == rest[1..];
        assert Join(fs) == [s[0]] + rest[0] + "\n" + Join(rest[1..]);
      }
    }
  }

  lemma {:induction false} JoinSnoc(lines: seq<string>, x: string)
    requires |lines| > 0
    ensures Join(lines + [x]) == Join(lines) + "\n" + x
    decreases |lines|
  {
    if |lines| == 1 {
    } else {
      assert (lines + [x])[1..] == lines[1..] + [x];
      JoinSnoc(lines[1..], x);
    }
  }

  lemma {:induction false} JoinDropTrailingEmpty(fs: seq<string>)
    ensures Join(DropTrailingEmpty(fs)) <= Join(fs)
    ensures forall i :: |Join(DropTrailingEmpty(fs))| <= i < |Join(fs)| ==> Join(fs)[i] == '\n'
    decreases |fs|
  {
    if |fs| > 0 && fs[|fs| - 1] == "" {
      var init := fs[..|fs| - 1];
      JoinDropTrailingEmpty(init);
      assert fs == init + [""];
      if |init| > 0 {
        JoinSnoc(init, "");
      }
    }
  }

  /**
    `Split` only drops newlines at the end: the joined lines are a prefix of
    the text and everything after that prefix is a newline.
   */
  lemma SplitDropsOnlyTrailingNewlines(s: string)
    ensures Join(Split(s)) <= s
    ensures forall i :: |Join(Split(s))| <= i < |s| ==> s[i] == '\n'
  {
    JoinFields(s);
    JoinDropTrailingEmpty(Fields(s));
  }

  lemma {:induction false} FieldsOfLine(a: string)
    ensures '\n' !in a ==> Fields(a) == [a]
    decreases |a|
  {
    if '\n' !in a && a != [] {
      FieldsOfLine(a[1..]);
      assert [a[0]] + a[1..] == a;
    }
  }

  lemma {:induction false} FieldsAfterLine(a: string, b: string)
    ensures '\n' !in a ==> Fields(a + "\n" + b) == [a] + Fields(b)
    decreases |a|
  {
    var s := a + "\n" + b;
    if '\n' in a {
    } else if a == [] {
      assert s[1..] == b;
    } else {
      assert s[1..] == a[1..] + "\n" + b;
      FieldsAfterLine(a[1..], b);
      assert [a[0]] + a[1..] == a;
    }
  }

  /** Splitting undoes joining, for exactly the lines that a split can produce. */
  lemma SplitJoin(lines: seq<string>)
    requires SplitShaped(lines)
    ensures Split(Join(lines)) == lines
  {
    if lines != [] {
      assert Fields(Join(lines)) == lines;
    }
  }
}
