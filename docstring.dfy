/** `parse_docstring`: a cleaned docstring, given as its lines, splits into a
    title (the first paragraph) and a description (everything after the blank
    line that ends the title). A line is blank when it is the empty string. */
module Docstring {

  /** Python's `" ".join(parts)`. */
  function Join(parts: seq<string>): string
  {
    if parts == [] then ""
    else if |parts| == 1 then parts[0]
    else parts[0] + " " + Join(parts[1..])
  }

  /** The lines that make up the title and the lines that make up the description. */
  datatype Split = Split(title: seq<string>, description: seq<string>)

  /** `lines` starts a title: its run of non-blank lines at the head is the
      title, and everything after the blank line ending that run (if there
      is one) is the description. */
  function TitleRun(lines: seq<string>): (r: Split)
    ensures |r.title| <= |lines| && r.title == lines[..|r.title|]
    ensures forall i :: 0 <= i < |r.title| ==> r.title[i] != ""
  {
    if lines == [] then Split([], [])
    else if lines[0] == "" then Split([], lines[1..])
    else
      var rest := TitleRun(lines[1..]);
      Split([lines[0]] + rest.title, rest.description)
  }

  /** The split `parse_docstring` computes: blank lines before the title are
      skipped, then the title run starts. */
  function SplitLines(lines: seq<string>): (r: Split)
    ensures forall i :: 0 <= i < |r.title| ==> r.title[i] != ""
  {
    if lines == [] then Split([], [])
    else if lines[0] == "" then SplitLines(lines[1..])
    else TitleRun(lines)
  }

  /** A docstring made of blank lines only has an empty title and an empty description. */
  lemma {:induction false} AllBlankSplit(lines: seq<string>)
    requires forall i :: 0 <= i < |lines| ==> lines[i] == ""
    ensures SplitLines(lines) == Split([], [])
  {
    if lines != [] {
      AllBlankSplit(lines[1..]);
    }
  }

  /** The title run is exactly the non-blank lines before the first blank
      line at or after the start; the description is what follows that blank
      line, or nothing when there is none. */
  lemma {:induction false} TitleRunShape(lines: seq<string>, j: nat)
    requires j <= |lines|
    requires forall i :: 0 <= i < j ==> lines[i] != ""
    requires j == |lines| || lines[j] == ""
    ensures TitleRun(lines) == Split(lines[..j], if j < |lines| then lines[j + 1..] else [])
  {
    if j > 0 {
      TitleRunShape(lines[1..], j - 1);
      assert lines[..j] == [lines[0]] + lines[1..][..j - 1];
      if j < |lines| {
        assert lines[1..][j..] == lines[j + 1..];
      }
    }
  }

  /** The characterisation of `parse_docstring`: with `k` leading blank
      lines, a title made of the non-blank lines `k .. j-1`, and line `j`
      blank (or the end), the title is `lines[k..j]` and the description
      is every line after `j`, blank ones included. Together with
      AllBlankSplit this covers every input. */
  lemma {:induction false} SplitLinesShape(lines: seq<string>, k: nat, j: nat)
    requires k < j <= |lines|
    requires forall i :: 0 <= i < k ==> lines[i] == ""
    requires forall i :: k <= i < j ==> lines[i] != ""
    requires j == |lines| || lines[j] == ""
    ensures SplitLines(lines).title == lines[k..j]
    ensures SplitLines(lines).description == if j < |lines| then lines[j + 1..] else []
  {
    if k == 0 {
      TitleRunShape(lines, j);
    } else {
      SplitLinesShape(lines[1..], k - 1, j - 1);
      assert lines[1..][k - 1..j - 1] == lines[k..j];
      if j < |lines| {
        assert lines[1..][j..] == lines[j + 1..];
      }
    }
  }

  /** Any docstring with a non-blank line has a non-empty title; the title
      is empty only for an all-blank docstring. */
  lemma {:induction false} TitleEmptyIffAllBlank(lines: seq<string>)
    ensures SplitLines(lines).title == [] <==> forall i :: 0 <= i < |lines| ==> lines[i] == ""
  {
    if lines == [] {
    } else if lines[0] == "" {
      TitleEmptyIffAllBlank(lines[1..]);
      assert forall i :: 1 <= i < |lines| ==> lines[i] == lines[1..][i - 1];
    } else {
      assert TitleRun(lines).title == [lines[0]] + TitleRun(lines[1..]).title;
    }
  }

  /** The state of the loop in `parse_docstring` after it has collected the
      title lines `title` and has the lines `rest` still to read. */
  function Resume(title: seq<string>, rest: seq<string>): Split
  {
    if title == [] then SplitLines(rest)
    else
      var r := TitleRun(rest);
      Split(title + r.title, r.description)
  }

  /** One iteration of the loop in `parse_docstring`, read at position `i`:
      a non-blank line joins the title, a blank line before the title is
      skipped, and a blank line after it ends the title with the rest as the
      description. */
  lemma ResumeStep(title: seq<string>, lines: seq<string>, i: nat)
    requires i < |lines|
    ensures lines[i] != "" ==> Resume(title, lines[i..]) == Resume(title + [lines[i]], lines[i + 1..])
    ensures lines[i] == "" && title == [] ==> Resume(title, lines[i..]) == Resume(title, lines[i + 1..])
    ensures lines[i] == "" && title != [] ==> Resume(title, lines[i..]) == Split(title, lines[i + 1..])
  {
    assert lines[i..][1..] == lines[i + 1..];
    if lines[i] != "" && title != [] {
      assert title + [lines[i]] + TitleRun(lines[i + 1..]).title == title + ([lines[i]] + TitleRun(lines[i + 1..]).title);
    }
  }

  /** `parse_docstring` itself: one pass over the lines, appending non-blank
      lines to the title and stopping at the first blank line that follows
      a title line. */
  method ParseDocstring(lines: seq<string>) returns (title: string, description: string)
    ensures title == Join(SplitLines(lines).title)
    ensures description == Join(SplitLines(lines).description)
  {
    var titleLines: seq<string> := [];
    var descriptionLines: seq<string> := [];
    var i := 0;
    while i < |lines|
      invariant 0 <= i <= |lines|
      invariant descriptionLines == []
      invariant Resume(titleLines, lines[i..]) == SplitLines(lines)
    {
      ResumeStep(titleLines, lines, i);
      if lines[i] != "" {
        titleLines := titleLines + [lines[i]];
      } else if titleLines != [] {
        descriptionLines := lines[i + 1..];
        break;
      }
      i := i + 1;
    }
    assert Split(titleLines, descriptionLines) == SplitLines(lines);
    title := Join(titleLines);
    description := Join(descriptionLines);
  }

  /** The docstring of the handler in the project's tests. */
  lemma ParseExample()
    ensures SplitLines(["Test of docstring", "", "And here is the description"])
      == Split(["Test of docstring"], ["And here is the description"])
    ensures Join(SplitLines(["Test of docstring", "", "And here is the description"]).title) == "Test of docstring"
    ensures Join(SplitLines(["Test of docstring", "", "And here is the description"]).description)
      == "And here is the description"
  {
    var lines := ["Test of docstring", "", "And here is the description"];
    SplitLinesShape(lines, 0, 1);
  }
}
