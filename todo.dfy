/** The `Todo` record of jira-weasel and the pure helpers defined on it:
    prefix stripping, the two renderings of a marker's opening line, and the
    newline-joined body. Strings are sequences of characters; Go's byte-wise
    comparisons become sequence comparisons. */
module Todos {

  datatype Option<+T> = None | Some(value: T)

  /** One marker comment found in a source file. */
  datatype Todo = Todo(
    prefix: string,              // comment opener written before the keyword
    keyword: string,             // e.g. "TODO"
    priority: string,            // the priority id, rendered with %s; kept opaque
    title: string,
    body: seq<string>,           // continuation lines
    filePath: string,            // origin file
    line: nat,                   // 1-based line number of the title line
    remoteAddr: string,
    reportedId: Option<string>,  // absent until an issue has been created
    regex: string)

  /** The text that `line` carries after the marker's prefix, when it has it. */
  function LineHasTodoPrefix(td: Todo, line: string): (r: Option<string>)
    ensures r.Some? <==> td.prefix <= line
    ensures r.Some? ==> td.prefix + r.value == line
  {
    if td.prefix <= line then Some(line[|td.prefix|..]) else None
  }

  /** Stripping the prefix undoes prepending it. */
  lemma StripAfterPrepend(td: Todo, rest: string)
    ensures LineHasTodoPrefix(td, td.prefix + rest) == Some(rest)
  {
  }

  /** The part of an opening line before the optional issue id. */
  function Head(td: Todo): (r: string)
  {
    td.prefix + td.keyword + " P" + td.priority
  }

  /** The opening line of the marker: `<prefix><keyword> P<priority>: <title>`,
      with ` (<id>)` before the colon once the marker is reported. */
  function ReturnTodoFirstLine(td: Todo): (r: string)
    ensures td.prefix + td.keyword <= r
    ensures Head(td) <= r
    ensures |r| == |Head(td)| + 2 + |td.title| + (if td.reportedId.Some? then |td.reportedId.value| + 3 else 0)
    ensures r[|r| - |td.title| - 2..] == ": " + td.title
  {
    match td.reportedId
    case None => td.prefix + td.keyword + " P" + td.priority + ": " + td.title
    case Some(id) => td.prefix + td.keyword + " P" + td.priority + " (" + id + "): " + td.title
  }

  /** The reported form is the unreported form with ` (<id>)` spliced in
      between the priority and the colon. */
  lemma ReportedFormInsertsId(td: Todo, id: string)
    requires td.reportedId == None
    ensures var k := |Head(td)|;
            var plain := ReturnTodoFirstLine(td);
            ReturnTodoFirstLine(td.(reportedId := Some(id))) == plain[..k] + " (" + id + ")" + plain[k..]
  {
  }

  /** Stripping the prefix from the opening line leaves the line as it would
      be rendered with an empty prefix, starting with keyword and priority. */
  lemma FirstLineHasPrefix(td: Todo)
    ensures var s := LineHasTodoPrefix(td, ReturnTodoFirstLine(td));
            && s.Some?
            && td.keyword + " P" + td.priority <= s.value
            && s.value == ReturnTodoFirstLine(td.(prefix := ""))
  {
    var bare := ReturnTodoFirstLine(td.(prefix := ""));
    assert ReturnTodoFirstLine(td) == td.prefix + bare by {
      match td.reportedId
      case None =>
      case Some(id) =>
    }
    StripAfterPrepend(td, bare);
  }

  /** The replacement line written when the marker's file is rewritten: the
      reported form (note the space after the prefix), or `defaultStr`
      unchanged when the marker is not reported. */
  function UpdatedTodoString(td: Todo, defaultStr: string): (r: string)
    ensures td.reportedId.None? ==> r == defaultStr
    ensures td.reportedId.Some? ==> td.prefix + " " + td.keyword <= r
    ensures td.reportedId.Some? ==> |r| == |ReturnTodoFirstLine(td)| + 1
  {
    match td.reportedId
    case None => defaultStr
    case Some(id) => td.prefix + " " + td.keyword + " P" + td.priority + " (" + id + "): " + td.title
  }

  /** A reported marker's replacement line does not depend on the line it replaces. */
  lemma UpdatedIgnoresOldLine(td: Todo, s1: string, s2: string)
    requires td.reportedId.Some?
    ensures UpdatedTodoString(td, s1) == UpdatedTodoString(td, s2)
  {
  }

  /** The replacement line is the opening line with one extra space after the
      prefix, so the two never coincide. */
  lemma UpdatedIsFirstLineWithExtraSpace(td: Todo, s: string)
    requires td.reportedId.Some?
    ensures UpdatedTodoString(td, s) == td.prefix + " " + ReturnTodoFirstLine(td)[|td.prefix|..]
    ensures UpdatedTodoString(td, s) != ReturnTodoFirstLine(td)
  {
  }

  /** Total length of the strings in `parts`. */
  function SumLengths(parts: seq<string>): (n: nat)
  {
    if parts == [] then 0 else |parts[0]| + SumLengths(parts[1..])
  }

  /** `parts` joined with `sep` between consecutive elements. */
  function Join(parts: seq<string>, sep: string): (r: string)
    ensures |parts| == 0 ==> r == ""
    ensures |parts| == 1 ==> r == parts[0]
    ensures |parts| > 0 ==> |r| == SumLengths(parts) + (|parts| - 1) * |sep|
    ensures |parts| > 0 ==> parts[0] <= r
  {
    if |parts| == 0 then ""
    else if |parts| == 1 then parts[0]
    else parts[0] + sep + Join(parts[1..], sep)
  }

  /** The body as one string, lines separated by newlines. */
  function StringBody(td: Todo): (r: string)
    ensures td.body == [] ==> r == ""
    ensures |td.body| == 1 ==> r == td.body[0]
    ensures td.body != [] ==> |r| == SumLengths(td.body) + |td.body| - 1
  {
    Join(td.body, "\n")
  }

  /** `s` cut at every newline; the reference inverse of `Join(_, "\n")`. */
  function SplitLines(s: string): (r: seq<string>)
    ensures |r| > 0
  {
    if |s| == 0 then [""]
    else
      var rest := SplitLines(s[1..]);
      if s[0] == '\n' then [""] + rest
      else [[s[0]] + rest[0]] + rest[1..]
  }

  lemma {:induction false} SplitLinesNoNewline(x: string)
    requires '\n' !in x
    ensures SplitLines(x) == [x]
  {
    if |x| > 0 {
      SplitLinesNoNewline(x[1..]);
      assert [x[0]] + x[1..] == x;
    }
  }

  lemma {:induction false} SplitLinesAtFirstNewline(x: string, t: string)
    requires '\n' !in x
    ensures SplitLines(x + "\n" + t) == [x] + SplitLines(t)
  {
    var s := x + "\n" + t;
    if |x| == 0 {
      assert s[1..] == t;
    } else {
      assert s[1..] == x[1..] + "\n" + t;
      SplitLinesAtFirstNewline(x[1..], t);
      assert [x[0]] + x[1..] == x;
    }
  }

  /** When no body line contains a newline, splitting the joined body gives
      the body lines back. */
  lemma {:induction false} SplitStringBody(td: Todo)
    requires td.body != []
    requires forall i :: 0 <= i < |td.body| ==> '\n' !in td.body[i]
    ensures SplitLines(StringBody(td)) == td.body
  {
    SplitJoin(td.body);
  }

  lemma {:induction false} SplitJoin(parts: seq<string>)
    requires parts != []
    requires forall i :: 0 <= i < |parts| ==> '\n' !in parts[i]
    ensures SplitLines(Join(parts, "\n")) == parts
  {
    if |parts| == 1 {
      SplitLinesNoNewline(parts[0]);
    } else {
      SplitJoin(parts[1..]);
      SplitLinesAtFirstNewline(parts[0], Join(parts[1..], "\n"));
      assert [parts[0]] + parts[1..] == parts;
    }
  }
}
