/** The two passes that rewrite a marker's origin file: reporting (replace the
    title line) and purging. Both stream the origin into a temporary file,
    copy the origin's mode onto it and rename it over the origin. The file
    system is a map from path to file; a file is its sequence of lines and
    its mode bits. Which system calls fail is an input (`IoFaults`). */
module Mutator {
  import opened Todos

  datatype File = File(lines: seq<string>, mode: nat)
  type Files = map<string, File>

  /** Temporary file used by the reporting pass. */
  const ReportTmpName: string := "/tmp/tmp-wasel.weasel"
  /** Temporary file used by the purging pass (a different name). */
  const PurgeTmpName: string := "/tmp/tmp-weasel.weasel"
  /** Mode given to a file that creating brings into existence (0666). */
  const CreateMode: nat := 438

  /** The step of the protocol that failed. */
  datatype IoError = CreateFailed | OpenFailed | ChmodFailed | RenameFailed

  /** Which of the system calls fail on this run. Opening also fails when
      the origin does not exist. `writeFails` makes every line write to the
      temporary file fail (a full disk, say); the passes ignore those errors,
      so the run goes on with an empty temporary file. */
  datatype IoFaults = IoFaults(createFails: bool, openFails: bool, writeFails: bool,
                               chmodFails: bool, renameFails: bool)

  function Min(a: int, b: int): (m: int) { if a <= b then a else b }

  /** What the temporary file holds after the scan wrote `out`. */
  function Stored(io: IoFaults, out: seq<string>): (r: seq<string>)
  {
    if io.writeFails then [] else out
  }

  // ---------------------------------------------------------------------
  // The file-system protocol

  /** The file system after creating `name`: an empty file, which keeps its
      mode when it existed already and gets `CreateMode` otherwise. */
  function Created(fs: Files, name: string): (r: Files)
    ensures name in r && r[name].lines == []
    ensures r[name].mode == if name in fs then fs[name].mode else CreateMode
  {
    fs[name := File([], if name in fs then fs[name].mode else CreateMode)]
  }

  /** The lines a pass reads from `path` once `tmp` has been created. */
  function Scanned(fs: Files, tmp: string, path: string): (r: seq<string>)
    ensures path != tmp && path in fs ==> r == fs[path].lines
    ensures path == tmp ==> r == []
  {
    var fs1 := Created(fs, tmp);
    if path in fs1 then fs1[path].lines else []
  }

  /** The file system and the error after running the protocol on `path`
      with temporary file `tmp`, when the scan writes `out`: create `tmp`,
      open `path`, read its mode, write `out` into `tmp`, give `tmp` that
      mode, rename `tmp` over `path`. Each step but the writes may fail and
      stop the run; failed writes are not noticed. */
  function Protocol(fs: Files, tmp: string, path: string, io: IoFaults, out: seq<string>): (r: (Files, Option<IoError>))
    ensures r.1.None? ==> path in r.0 && r.0[path].lines == Stored(io, out)
    ensures r.1.Some? ==> r.0.Keys <= fs.Keys + {tmp}
  {
    if io.createFails then (fs, Some(CreateFailed))
    else
      var fs1 := Created(fs, tmp);
      if io.openFails || path !in fs1 then (fs1, Some(OpenFailed))
      else
        var mode := fs1[path].mode;
        var fs2 := fs1[tmp := File(Stored(io, out), fs1[tmp].mode)];
        if io.chmodFails then (fs2, Some(ChmodFailed))
        else
          var fs3 := fs2[tmp := File(Stored(io, out), mode)];
          if io.renameFails then (fs3, Some(RenameFailed))
          else ((fs3 - {tmp})[path := fs3[tmp]], None)
  }

  /** The protocol fails exactly when one of its steps does, and then it
      reports that step. */
  lemma ProtocolErrors(fs: Files, tmp: string, path: string, io: IoFaults, out: seq<string>)
    ensures var err := Protocol(fs, tmp, path, io, out).1;
      && (err.None? <==> !io.createFails && !io.openFails && (path in fs || path == tmp) && !io.chmodFails && !io.renameFails)
      && (io.createFails ==> err == Some(CreateFailed))
      && (!io.createFails && (io.openFails || (path !in fs && path != tmp)) ==> err == Some(OpenFailed))
  {
  }

  /** A failed run leaves every file other than the temporary one as it was,
      the origin included. */
  lemma ProtocolErrorKeepsFiles(fs: Files, tmp: string, path: string, io: IoFaults, out: seq<string>)
    requires Protocol(fs, tmp, path, io, out).1.Some?
    ensures var fs' := Protocol(fs, tmp, path, io, out).0;
      forall p :: p in fs && p != tmp ==> p in fs' && fs'[p] == fs[p]
  {
  }

  /** A successful run replaces the origin by `out` (by nothing when the
      writes failed), keeps its mode, removes the temporary file and leaves
      every other file as it was. */
  lemma ProtocolSuccess(fs: Files, tmp: string, path: string, io: IoFaults, out: seq<string>)
    requires path != tmp
    requires Protocol(fs, tmp, path, io, out).1.None?
    ensures var fs' := Protocol(fs, tmp, path, io, out).0;
      && path in fs && path in fs'
      && fs'[path] == File(Stored(io, out), fs[path].mode)
      && tmp !in fs'
      && fs'.Keys == fs.Keys - {tmp}
      && forall p :: p in fs && p != tmp && p != path ==> fs'[p] == fs[p]
  {
  }

  /** The passes do not look at the errors of their writes: when every write
      fails but the other steps succeed, the run reports success and the
      origin is left empty, whatever the scan produced. */
  lemma WriteFailureEmptiesOrigin(fs: Files, tmp: string, path: string, io: IoFaults, out: seq<string>)
    requires path != tmp && path in fs
    requires io.writeFails && !io.createFails && !io.openFails && !io.chmodFails && !io.renameFails
    ensures var (fs', err) := Protocol(fs, tmp, path, io, out);
      err.None? && path in fs' && fs'[path] == File([], fs[path].mode)
  {
    ProtocolSuccess(fs, tmp, path, io, out);
  }

  // ---------------------------------------------------------------------
  // The reporting pass

  /** What the reporting scan writes for the lines `rest` when `lnn` lines
      precede them: line `td.line` is replaced, every other line copied. */
  function ReportFrom(td: Todo, rest: seq<string>, lnn: nat): (r: seq<string>)
    ensures |r| == |rest|
    decreases |rest|
  {
    if rest == [] then []
    else [if td.line == lnn + 1 then UpdatedTodoString(td, rest[0]) else rest[0]]
         + ReportFrom(td, rest[1..], lnn + 1)
  }

  /** The lines of the origin after reporting `td` in `src`. */
  function ReportedLines(td: Todo, src: seq<string>): (r: seq<string>)
    ensures |r| == |src|
  {
    ReportFrom(td, src, 0)
  }

  lemma {:induction false} ReportFromAt(td: Todo, rest: seq<string>, lnn: nat, k: nat)
    requires k < |rest|
    ensures ReportFrom(td, rest, lnn)[k]
            == if lnn + k + 1 == td.line then UpdatedTodoString(td, rest[k]) else rest[k]
  {
    var first := if td.line == lnn + 1 then UpdatedTodoString(td, rest[0]) else rest[0];
    assert ReportFrom(td, rest, lnn) == [first] + ReportFrom(td, rest[1..], lnn + 1);
    if k > 0 {
      ReportFromAt(td, rest[1..], lnn + 1, k - 1);
    }
  }

  lemma ReportFromStep(td: Todo, src: seq<string>, lnn: nat)
    requires lnn < |src|
    ensures ReportFrom(td, src[lnn..], lnn)
            == [if td.line == lnn + 1 then UpdatedTodoString(td, src[lnn]) else src[lnn]]
               + ReportFrom(td, src[lnn + 1..], lnn + 1)
  {
    assert src[lnn..][1..] == src[lnn + 1..];
  }

  /** Reporting keeps the number of lines, rewrites line `td.line` with
      `UpdatedTodoString` and copies every other line. */
  lemma {:induction false} ReportedLinesPointwise(td: Todo, src: seq<string>)
    ensures |ReportedLines(td, src)| == |src|
    ensures forall k :: 0 <= k < |src| && k + 1 != td.line ==> ReportedLines(td, src)[k] == src[k]
    ensures 1 <= td.line <= |src| ==>
              ReportedLines(td, src)[td.line - 1] == UpdatedTodoString(td, src[td.line - 1])
  {
    if src != [] { ReportFromAt(td, src, 0, 0); }
    forall k | 0 <= k < |src|
      ensures ReportedLines(td, src)[k]
              == if k + 1 == td.line then UpdatedTodoString(td, src[k]) else src[k]
    {
      ReportFromAt(td, src, 0, k);
    }
  }

  /** An unreported marker, or a line number outside the file, leaves the
      lines as they are. */
  lemma ReportedLinesIdentity(td: Todo, src: seq<string>)
    requires td.reportedId.None? || td.line == 0 || td.line > |src|
    ensures ReportedLines(td, src) == src
  {
    ReportedLinesPointwise(td, src);
  }

  // ---------------------------------------------------------------------
  // The purging pass, as written

  /** What the purging scan writes for the lines `rest`, where `lnn` counts
      the lines written so far: it skips a line when `td.line == lnn + 1`, or
      when the line has the marker's prefix and `lnn > td.line`; only a
      written line advances `lnn`. */
  function PurgeFrom(td: Todo, rest: seq<string>, lnn: nat): (r: seq<string>)
    ensures |r| <= |rest|
    decreases |rest|
  {
    if rest == [] then []
    else if td.line == lnn + 1 then PurgeFrom(td, rest[1..], lnn)
    else if LineHasTodoPrefix(td, rest[0]).Some? && lnn > td.line then PurgeFrom(td, rest[1..], lnn)
    else [rest[0]] + PurgeFrom(td, rest[1..], lnn + 1)
  }

  lemma PurgeFromStep(td: Todo, src: seq<string>, i: nat, lnn: nat)
    requires i < |src|
    ensures PurgeFrom(td, src[i..], lnn)
            == if td.line == lnn + 1 then PurgeFrom(td, src[i + 1..], lnn)
               else if LineHasTodoPrefix(td, src[i]).Some? && lnn > td.line then PurgeFrom(td, src[i + 1..], lnn)
               else [src[i]] + PurgeFrom(td, src[i + 1..], lnn + 1)
  {
    assert src[i..][1..] == src[i + 1..];
  }

  /** The lines of the origin after `SelfPurge`. */
  function PurgeAsWritten(td: Todo, src: seq<string>): (r: seq<string>)
    ensures |r| <= |src|
  {
    PurgeFrom(td, src, 0)
  }

  /** The lines of `rest` that do not carry the marker's prefix. */
  function Unprefixed(td: Todo, rest: seq<string>): (r: seq<string>)
    ensures |r| <= |rest|
  {
    if rest == [] then []
    else if LineHasTodoPrefix(td, rest[0]).Some? then Unprefixed(td, rest[1..])
    else [rest[0]] + Unprefixed(td, rest[1..])
  }

  /** `a` is `b` with some elements left out, order kept. */
  predicate IsSubsequence(a: seq<string>, b: seq<string>)
    decreases |b|
  {
    if a == [] then true
    else if b == [] then false
    else (a[0] == b[0] && IsSubsequence(a[1..], b[1..])) || IsSubsequence(a, b[1..])
  }

  lemma {:induction false} PurgeFromAtTitle(td: Todo, rest: seq<string>, lnn: nat)
    requires td.line == lnn + 1
    ensures PurgeFrom(td, rest, lnn) == []
  {
    if rest != [] { PurgeFromAtTitle(td, rest[1..], lnn); }
  }

  lemma {:induction false} PurgeFromBeforeTitle(td: Todo, rest: seq<string>, lnn: nat)
    requires lnn < td.line
    ensures PurgeFrom(td, rest, lnn) == rest[..Min(|rest|, td.line - 1 - lnn)]
  {
    if rest != [] {
      if td.line == lnn + 1 {
        PurgeFromAtTitle(td, rest, lnn);
      } else {
        PurgeFromBeforeTitle(td, rest[1..], lnn + 1);
        assert [rest[0]] + rest[1..][..Min(|rest| - 1, td.line - 2 - lnn)]
               == rest[..Min(|rest|, td.line - 1 - lnn)];
      }
    }
  }

  /** Once the title line is reached the counter stops at `td.line - 1`, so
      the title line and every line after it are dropped: the file is cut
      just before the title line. */
  lemma SelfPurgeTruncatesAtTitle(td: Todo, src: seq<string>)
    requires 1 <= td.line <= |src|
    ensures PurgeAsWritten(td, src) == src[..td.line - 1]
    ensures |PurgeAsWritten(td, src)| == td.line - 1
  {
    PurgeFromBeforeTitle(td, src, 0);
  }

  /** A title line number past the end of the file leaves the file as it is. */
  lemma SelfPurgeBeyondEnd(td: Todo, src: seq<string>)
    requires td.line > |src|
    ensures PurgeAsWritten(td, src) == src
  {
    PurgeFromBeforeTitle(td, src, 0);
    assert src[..|src|] == src;
  }

  lemma {:induction false} PurgeFromLineZero(td: Todo, rest: seq<string>, lnn: nat)
    requires td.line == 0 && lnn > 0
    ensures PurgeFrom(td, rest, lnn) == Unprefixed(td, rest)
  {
    if rest != [] {
      PurgeFromLineZero(td, rest[1..], lnn);
      PurgeFromLineZero(td, rest[1..], lnn + 1);
    }
  }

  /** With line number 0 the first line is kept and every later line that
      carries the prefix is dropped. */
  lemma SelfPurgeLineZero(td: Todo, src: seq<string>)
    requires td.line == 0 && src != []
    ensures PurgeAsWritten(td, src) == [src[0]] + Unprefixed(td, src[1..])
  {
    PurgeFromLineZero(td, src[1..], 1);
  }

  lemma {:induction false} PurgeFromSubsequence(td: Todo, rest: seq<string>, lnn: nat)
    ensures IsSubsequence(PurgeFrom(td, rest, lnn), rest)
  {
    if rest != [] {
      PurgeFromSubsequence(td, rest[1..], lnn);
      PurgeFromSubsequence(td, rest[1..], lnn + 1);
      var tail0 := PurgeFrom(td, rest[1..], lnn);
      var tail1 := PurgeFrom(td, rest[1..], lnn + 1);
      SkipFirst(tail0, rest);
      assert ([rest[0]] + tail1)[1..] == tail1;
    }
  }

  lemma {:induction false} SkipFirst(a: seq<string>, b: seq<string>)
    requires b != [] && IsSubsequence(a, b[1..])
    ensures IsSubsequence(a, b)
  {
  }

  /** Whatever the line number, purging only drops lines and keeps the order
      of those it keeps. */
  lemma SelfPurgeKeepsOrder(td: Todo, src: seq<string>)
    ensures IsSubsequence(PurgeAsWritten(td, src), src)
  {
    PurgeFromSubsequence(td, src, 0);
  }

  // ---------------------------------------------------------------------
  // The purging pass, corrected

  /** Line `j` (1-based) is the title line of `td` or one of its body lines. */
  predicate InMarker(td: Todo, j: nat)
  {
    1 <= td.line <= j <= td.line + |td.body|
  }

  /** What the corrected purging scan writes for `rest` when `lnn` lines were
      read before it: every line not in the marker. */
  function PurgeMarkerFrom(td: Todo, rest: seq<string>, lnn: nat): (r: seq<string>)
    ensures |r| <= |rest|
    decreases |rest|
  {
    if rest == [] then []
    else if InMarker(td, lnn + 1) then PurgeMarkerFrom(td, rest[1..], lnn + 1)
    else [rest[0]] + PurgeMarkerFrom(td, rest[1..], lnn + 1)
  }

  lemma PurgeMarkerFromStep(td: Todo, src: seq<string>, lnn: nat)
    requires lnn < |src|
    ensures PurgeMarkerFrom(td, src[lnn..], lnn)
            == if InMarker(td, lnn + 1) then PurgeMarkerFrom(td, src[lnn + 1..], lnn + 1)
               else [src[lnn]] + PurgeMarkerFrom(td, src[lnn + 1..], lnn + 1)
  {
    assert src[lnn..][1..] == src[lnn + 1..];
  }

  /** The lines of the origin after the corrected purge. */
  function PurgeMarkerLines(td: Todo, src: seq<string>): (r: seq<string>)
    ensures |r| <= |src|
  {
    PurgeMarkerFrom(td, src, 0)
  }

  function Clamp(x: int, hi: nat): (c: nat)
  {
    if x < 0 then 0 else if x > hi then hi else x
  }

  lemma {:induction false} PurgeMarkerFromCut(td: Todo, rest: seq<string>, lnn: nat)
    requires td.line >= 1
    ensures var a := Clamp(td.line - 1 - lnn, |rest|);
            var b := Clamp(td.line + |td.body| - lnn, |rest|);
            a <= b && PurgeMarkerFrom(td, rest, lnn) == rest[..a] + rest[b..]
  {
    if rest != [] {
      var tail := rest[1..];
      PurgeMarkerFromCut(td, tail, lnn + 1);
      var a := Clamp(td.line - 1 - lnn, |rest|);
      var b := Clamp(td.line + |td.body| - lnn, |rest|);
      var a' := Clamp(td.line - 1 - (lnn + 1), |tail|);
      var b' := Clamp(td.line + |td.body| - (lnn + 1), |tail|);
      assert PurgeMarkerFrom(td, tail, lnn + 1) == tail[..a'] + tail[b'..];
      if InMarker(td, lnn + 1) {
        assert a == 0 && a' == 0 && b == b' + 1;
        assert tail[b'..] == rest[b..];
      } else if lnn + 1 < td.line {
        assert a == a' + 1 && b == b' + 1;
        assert [rest[0]] + tail[..a'] == rest[..a];
        assert tail[b'..] == rest[b..];
      } else {
        assert a == 0 && b == 0 && a' == 0 && b' == 0;
        assert [rest[0]] + tail == rest;
      }
    }
  }

  /** The corrected purge removes exactly the title line and the body lines
      that follow it, and copies every other line in order. */
  lemma PurgeMarkerRemovesExactlyMarker(td: Todo, src: seq<string>)
    requires 1 <= td.line && td.line + |td.body| <= |src|
    ensures PurgeMarkerLines(td, src) == src[..td.line - 1] + src[td.line + |td.body|..]
    ensures |PurgeMarkerLines(td, src)| == |src| - (|td.body| + 1)
  {
    PurgeMarkerFromCut(td, src, 0);
  }

  /** The marker of the scenario below: title on line 1, one body line. */
  function ScenarioTodo(): (td: Todo)
  {
    Todo("// ", "TODO", "0", "fix parsing", ["more context"], "main.go", 1, "", Some("PROJ-42"), "")
  }

  /** Purging a marker at the top of a file empties the whole file, where
      removing the marker alone keeps the code after it. */
  lemma SelfPurgeEmptiesFileAfterMarker()
    ensures var src := ["// TODO: fix parsing", "// more context", "x := 1"];
            PurgeAsWritten(ScenarioTodo(), src) == []
            && PurgeMarkerLines(ScenarioTodo(), src) == ["x := 1"]
  {
    var src := ["// TODO: fix parsing", "// more context", "x := 1"];
    SelfPurgeTruncatesAtTitle(ScenarioTodo(), src);
    PurgeMarkerRemovesExactlyMarker(ScenarioTodo(), src);
  }

  lemma ScenarioReplacementLine(s: string)
    ensures UpdatedTodoString(ScenarioTodo(), s) == "//  TODO P0 (PROJ-42): fix parsing"
  {
    assert "// " + " " + "TODO" + " P" + "0" + " (" + "PROJ-42" + "): " + "fix parsing"
           == "//  TODO P0 (PROJ-42): fix parsing";
  }

  /** Reporting that marker as PROJ-42 rewrites line 1 with two spaces after
      `//`, because the replacement line puts a space after the prefix that
      already ends in one; lines 2 and 3 are copied. */
  lemma ReportScenario()
    ensures var src := ["// TODO: fix parsing", "// more context", "x := 1"];
            ReportedLines(ScenarioTodo(), src)
            == ["//  TODO P0 (PROJ-42): fix parsing", "// more context", "x := 1"]
  {
    var td := ScenarioTodo();
    var src := ["// TODO: fix parsing", "// more context", "x := 1"];
    var line1 := "//  TODO P0 (PROJ-42): fix parsing";
    ScenarioReplacementLine(src[0]);
    assert ReportFrom(td, src[2..], 2) == [src[2]];
    assert ReportFrom(td, src[1..], 1) == [src[1], src[2]] by {
      assert src[1..][1..] == src[2..];
    }
    assert ReportFrom(td, src, 0) == [line1] + [src[1], src[2]];
  }

  // ---------------------------------------------------------------------
  // The state that the passes change

  class FileSystem {
    var files: Files

    constructor (initial: Files)
      ensures files == initial
    {
      files := initial;
    }

    /** Creates (or truncates) the file `name`. */
    method Create(name: string, fails: bool) returns (ok: bool)
      modifies this
      ensures ok == !fails
      ensures files == if ok then Created(old(files), name) else old(files)
    {
      ok := !fails;
      if ok {
        files := Created(files, name);
      }
    }

    /** Appends one line to the file `name`; a failing write changes
        nothing, and its error is not reported. */
    method WriteLine(name: string, line: string, fails: bool)
      requires name in files
      modifies this
      ensures files == if fails then old(files)
                       else old(files)[name := File(old(files)[name].lines + [line], old(files)[name].mode)]
    {
      if !fails {
        files := files[name := File(files[name].lines + [line], files[name].mode)];
      }
    }

    /** Sets the mode bits of the file `name`. */
    method Chmod(name: string, mode: nat, fails: bool) returns (ok: bool)
      requires name in files
      modifies this
      ensures ok == !fails
      ensures files == if ok then old(files)[name := File(old(files)[name].lines, mode)] else old(files)
    {
      ok := !fails;
      if ok {
        files := files[name := File(files[name].lines, mode)];
      }
    }

    /** Moves the file `from` to the path `to`, replacing what was there. */
    method Rename(from: string, to: string, fails: bool) returns (ok: bool)
      requires from in files
      modifies this
      ensures ok == !fails
      ensures files == if ok then (old(files) - {from})[to := old(files)[from]] else old(files)
    {
      ok := !fails;
      if ok {
        files := (files - {from})[to := files[from]];
      }
    }

    /** One write of a scan that has so far written `written` into the
        temporary file `tmp`, which held `base[tmp]` before the scan. */
    method Emit(tmp: string, line: string, fails: bool, ghost base: Files, ghost written: seq<string>)
      requires tmp in base
      requires files == base[tmp := File(base[tmp].lines + (if fails then [] else written), base[tmp].mode)]
      modifies this
      ensures files == base[tmp := File(base[tmp].lines + (if fails then [] else written + [line]), base[tmp].mode)]
    {
      assert (base[tmp].lines + written) + [line] == base[tmp].lines + (written + [line]);
      WriteLine(tmp, line, fails);
    }

    /** The scanning loop of the reporting pass: appends the lines of `src`
        to the file `tmp`, line `td.line` replaced by `UpdatedTodoString`;
        `lnn` counts the lines read. */
    method ScanReported(td: Todo, src: seq<string>, tmp: string, fails: bool)
      requires tmp in files
      modifies this
      ensures files == old(files)[tmp := File(old(files)[tmp].lines + (if fails then [] else ReportedLines(td, src)),
                                              old(files)[tmp].mode)]
    {
      ghost var fs1 := files;
      ghost var written: seq<string> := [];
      assert fs1[tmp].lines + (if fails then [] else written) == fs1[tmp].lines;
      assert fs1 == fs1[tmp := File(fs1[tmp].lines, fs1[tmp].mode)];
      var lnn := 0;
      while lnn < |src|
        invariant lnn <= |src|
        invariant files == fs1[tmp := File(fs1[tmp].lines + (if fails then [] else written), fs1[tmp].mode)]
        invariant written + ReportFrom(td, src[lnn..], lnn) == ReportedLines(td, src)
      {
        var lnContent := src[lnn];
        var outLine := if td.line == lnn + 1 then UpdatedTodoString(td, lnContent) else lnContent;
        ReportFromStep(td, src, lnn);
        assert (written + [outLine]) + ReportFrom(td, src[lnn + 1..], lnn + 1)
               == written + ReportFrom(td, src[lnn..], lnn);
        Emit(tmp, outLine, fails, fs1, written);
        written := written + [outLine];
        lnn := lnn + 1;
      }
      assert ReportFrom(td, src[lnn..], lnn) == [];
      assert written == ReportedLines(td, src);
    }

    /** The scanning loop of the purging pass as written: appends the lines
        of `src` to the file `tmp`, skipping a line when `td.line == lnn + 1`
        or when it has the prefix and `lnn > td.line`. `lnn` only advances
        when a line is written. */
    method ScanPurged(td: Todo, src: seq<string>, tmp: string, fails: bool)
      requires tmp in files
      modifies this
      ensures files == old(files)[tmp := File(old(files)[tmp].lines + (if fails then [] else PurgeAsWritten(td, src)),
                                              old(files)[tmp].mode)]
    {
      ghost var fs1 := files;
      ghost var written: seq<string> := [];
      assert fs1[tmp].lines + (if fails then [] else written) == fs1[tmp].lines;
      assert fs1 == fs1[tmp := File(fs1[tmp].lines, fs1[tmp].mode)];
      var lnn := 0;
      var i := 0;
      while i < |src|
        invariant i <= |src|
        invariant files == fs1[tmp := File(fs1[tmp].lines + (if fails then [] else written), fs1[tmp].mode)]
        invariant written + PurgeFrom(td, src[i..], lnn) == PurgeAsWritten(td, src)
      {
        var lnContent := src[i];
        PurgeFromStep(td, src, i, lnn);
        i := i + 1;
        if td.line == lnn + 1 {
          continue;
        }
        var lineIsPartOfTheTodoBody := LineHasTodoPrefix(td, lnContent);
        if lineIsPartOfTheTodoBody.Some? && lnn > td.line {
          continue;
        }
        assert (written + [lnContent]) + PurgeFrom(td, src[i..], lnn + 1)
               == written + PurgeFrom(td, src[i - 1..], lnn);
        Emit(tmp, lnContent, fails, fs1, written);
        written := written + [lnContent];
        lnn := lnn + 1;
      }
      assert PurgeFrom(td, src[i..], lnn) == [];
      assert written == PurgeAsWritten(td, src);
    }

    /** The scanning loop of the corrected purge: appends the lines of `src`
        to the file `tmp` except the title line and the body lines of `td`;
        `lnn` counts the lines read. */
    method ScanPurgedMarker(td: Todo, src: seq<string>, tmp: string, fails: bool)
      requires tmp in files
      modifies this
      ensures files == old(files)[tmp := File(old(files)[tmp].lines + (if fails then [] else PurgeMarkerLines(td, src)),
                                              old(files)[tmp].mode)]
    {
      ghost var fs1 := files;
      ghost var written: seq<string> := [];
      assert fs1[tmp].lines + (if fails then [] else written) == fs1[tmp].lines;
      assert fs1 == fs1[tmp := File(fs1[tmp].lines, fs1[tmp].mode)];
      var lnn := 0;
      while lnn < |src|
        invariant lnn <= |src|
        invariant files == fs1[tmp := File(fs1[tmp].lines + (if fails then [] else written), fs1[tmp].mode)]
        invariant written + PurgeMarkerFrom(td, src[lnn..], lnn) == PurgeMarkerLines(td, src)
      {
        var lnContent := src[lnn];
        PurgeMarkerFromStep(td, src, lnn);
        if !InMarker(td, lnn + 1) {
          assert (written + [lnContent]) + PurgeMarkerFrom(td, src[lnn + 1..], lnn + 1)
                 == written + PurgeMarkerFrom(td, src[lnn..], lnn);
          Emit(tmp, lnContent, fails, fs1, written);
          written := written + [lnContent];
        }
        lnn := lnn + 1;
      }
      assert PurgeMarkerFrom(td, src[lnn..], lnn) == [];
      assert written == PurgeMarkerLines(td, src);
    }

    /** Rewrites the title line of `td` in its file with the reported form.
        Each failing step is returned as an error. */
    method ChangeTodoStatusToReported(td: Todo, io: IoFaults) returns (err: Option<IoError>)
      modifies this
      ensures (files, err)
              == Protocol(old(files), ReportTmpName, td.filePath, io,
                          ReportedLines(td, Scanned(old(files), ReportTmpName, td.filePath)))
      ensures td.filePath != ReportTmpName && td.filePath in old(files) && err.Some?
              ==> td.filePath in files && files[td.filePath] == old(files)[td.filePath]
      ensures td.filePath != ReportTmpName && err.None?
              ==> td.filePath in old(files)
                  && files[td.filePath]
                     == File(Stored(io, ReportedLines(td, old(files)[td.filePath].lines)), old(files)[td.filePath].mode)
    {
      ghost var fs0 := files;
      var ok := Create(ReportTmpName, io.createFails);
      if !ok {
        err := Some(CreateFailed);
      } else if io.openFails || td.filePath !in files {
        err := Some(OpenFailed);
      } else {
        var src := files[td.filePath].lines;
        var mode := files[td.filePath].mode;
        assert src == Scanned(fs0, ReportTmpName, td.filePath);
        ScanReported(td, src, ReportTmpName, io.writeFails);
        assert [] + Stored(io, ReportedLines(td, src)) == Stored(io, ReportedLines(td, src));
        ok := Chmod(ReportTmpName, mode, io.chmodFails);
        if !ok {
          err := Some(ChmodFailed);
        } else {
          ok := Rename(ReportTmpName, td.filePath, io.renameFails);
          err := if ok then None else Some(RenameFailed);
        }
      }
      ReportOutcome(fs0, td, io, files, err);
    }

    /** Deletes the marker `td` from its file, as the source does it: the
        file is cut before the title line (see `SelfPurgeTruncatesAtTitle`).
        The source returns no error; a failing step stops the whole process,
        which `aborted` reports. */
    method SelfPurge(td: Todo, io: IoFaults) returns (aborted: Option<IoError>)
      requires td.reportedId.Some?
      modifies this
      ensures (files, aborted)
              == Protocol(old(files), PurgeTmpName, td.filePath, io,
                          PurgeAsWritten(td, Scanned(old(files), PurgeTmpName, td.filePath)))
      ensures td.filePath != PurgeTmpName && td.filePath in old(files) && aborted.Some?
              ==> td.filePath in files && files[td.filePath] == old(files)[td.filePath]
      ensures td.filePath != PurgeTmpName && aborted.None?
              ==> td.filePath in old(files)
                  && files[td.filePath].mode == old(files)[td.filePath].mode
                  && IsSubsequence(files[td.filePath].lines, old(files)[td.filePath].lines)
                  && (io.writeFails ==> files[td.filePath].lines == [])
                  && (!io.writeFails && 1 <= td.line <= |old(files)[td.filePath].lines|
                      ==> files[td.filePath].lines == old(files)[td.filePath].lines[..td.line - 1])
                  && (!io.writeFails && td.line > |old(files)[td.filePath].lines|
                      ==> files[td.filePath] == old(files)[td.filePath])
    {
      ghost var fs0 := files;
      var ok := Create(PurgeTmpName, io.createFails);
      if !ok {
        aborted := Some(CreateFailed);
      } else if io.openFails || td.filePath !in files {
        aborted := Some(OpenFailed);
      } else {
        var src := files[td.filePath].lines;
        var mode := files[td.filePath].mode;
        assert src == Scanned(fs0, PurgeTmpName, td.filePath);
        ScanPurged(td, src, PurgeTmpName, io.writeFails);
        assert [] + Stored(io, PurgeAsWritten(td, src)) == Stored(io, PurgeAsWritten(td, src));
        ok := Chmod(PurgeTmpName, mode, io.chmodFails);
        if !ok {
          aborted := Some(ChmodFailed);
        } else {
          ok := Rename(PurgeTmpName, td.filePath, io.renameFails);
          aborted := if ok then None else Some(RenameFailed);
        }
      }
      SelfPurgeOutcome(fs0, td, io, files, aborted);
    }

    /** Deletes the marker `td` from its file: the title line and the
        `|td.body|` lines after it. Each failing step is returned as an error. */
    method PurgeMarker(td: Todo, io: IoFaults) returns (err: Option<IoError>)
      modifies this
      ensures (files, err)
              == Protocol(old(files), PurgeTmpName, td.filePath, io,
                          PurgeMarkerLines(td, Scanned(old(files), PurgeTmpName, td.filePath)))
      ensures td.filePath != PurgeTmpName && td.filePath in old(files) && err.Some?
              ==> td.filePath in files && files[td.filePath] == old(files)[td.filePath]
      ensures td.filePath != PurgeTmpName && err.None?
              ==> td.filePath in old(files)
                  && files[td.filePath].mode == old(files)[td.filePath].mode
                  && (io.writeFails ==> files[td.filePath].lines == [])
                  && (!io.writeFails && 1 <= td.line && td.line + |td.body| <= |old(files)[td.filePath].lines|
                      ==> files[td.filePath].lines
                          == old(files)[td.filePath].lines[..td.line - 1]
                             + old(files)[td.filePath].lines[td.line + |td.body|..])
    {
      ghost var fs0 := files;
      var ok := Create(PurgeTmpName, io.createFails);
      if !ok {
        err := Some(CreateFailed);
      } else if io.openFails || td.filePath !in files {
        err := Some(OpenFailed);
      } else {
        var src := files[td.filePath].lines;
        var mode := files[td.filePath].mode;
        assert src == Scanned(fs0, PurgeTmpName, td.filePath);
        ScanPurgedMarker(td, src, PurgeTmpName, io.writeFails);
        assert [] + Stored(io, PurgeMarkerLines(td, src)) == Stored(io, PurgeMarkerLines(td, src));
        ok := Chmod(PurgeTmpName, mode, io.chmodFails);
        if !ok {
          err := Some(ChmodFailed);
        } else {
          ok := Rename(PurgeTmpName, td.filePath, io.renameFails);
          err := if ok then None else Some(RenameFailed);
        }
      }
      PurgeMarkerOutcome(fs0, td, io, files, err);
    }
  }

  /** The consequences of `Protocol` that the passes promise: on an error
      the origin is untouched, on success it holds `out` with its old mode. */
  lemma ProtocolOutcome(fs: Files, tmp: string, path: string, io: IoFaults, out: seq<string>,
                        fs': Files, err: Option<IoError>)
    requires (fs', err) == Protocol(fs, tmp, path, io, out)
    ensures path != tmp && path in fs && err.Some? ==> path in fs' && fs'[path] == fs[path]
    ensures path != tmp && err.None? ==> path in fs && path in fs' && fs'[path] == File(Stored(io, out), fs[path].mode)
  {
    if err.Some? {
      ProtocolErrorKeepsFiles(fs, tmp, path, io, out);
    } else if path != tmp {
      ProtocolSuccess(fs, tmp, path, io, out);
    }
  }

  /** What `PurgeMarker` promises about the origin, from its protocol run. */
  lemma PurgeMarkerOutcome(fs: Files, td: Todo, io: IoFaults, fs': Files, err: Option<IoError>)
    requires (fs', err) == Protocol(fs, PurgeTmpName, td.filePath, io,
                                    PurgeMarkerLines(td, Scanned(fs, PurgeTmpName, td.filePath)))
    ensures td.filePath != PurgeTmpName && td.filePath in fs && err.Some?
            ==> td.filePath in fs' && fs'[td.filePath] == fs[td.filePath]
    ensures td.filePath != PurgeTmpName && err.None?
            ==> td.filePath in fs
                && fs'[td.filePath].mode == fs[td.filePath].mode
                && (io.writeFails ==> fs'[td.filePath].lines == [])
                && (!io.writeFails && 1 <= td.line && td.line + |td.body| <= |fs[td.filePath].lines|
                    ==> fs'[td.filePath].lines
                        == fs[td.filePath].lines[..td.line - 1] + fs[td.filePath].lines[td.line + |td.body|..])
  {
    var out := PurgeMarkerLines(td, Scanned(fs, PurgeTmpName, td.filePath));
    ProtocolOutcome(fs, PurgeTmpName, td.filePath, io, out, fs', err);
    if td.filePath != PurgeTmpName && err.None? {
      var src := fs[td.filePath].lines;
      assert Scanned(fs, PurgeTmpName, td.filePath) == src;
      if !io.writeFails && 1 <= td.line && td.line + |td.body| <= |src| {
        PurgeMarkerRemovesExactlyMarker(td, src);
      }
    }
  }

  /** What `SelfPurge` promises about the origin, from its protocol run. */
  lemma SelfPurgeOutcome(fs: Files, td: Todo, io: IoFaults, fs': Files, aborted: Option<IoError>)
    requires (fs', aborted) == Protocol(fs, PurgeTmpName, td.filePath, io,
                                        PurgeAsWritten(td, Scanned(fs, PurgeTmpName, td.filePath)))
    ensures td.filePath != PurgeTmpName && td.filePath in fs && aborted.Some?
            ==> td.filePath in fs' && fs'[td.filePath] == fs[td.filePath]
    ensures td.filePath != PurgeTmpName && aborted.None?
            ==> td.filePath in fs
                && fs'[td.filePath].mode == fs[td.filePath].mode
                && IsSubsequence(fs'[td.filePath].lines, fs[td.filePath].lines)
                && (io.writeFails ==> fs'[td.filePath].lines == [])
                && (!io.writeFails && 1 <= td.line <= |fs[td.filePath].lines|
                    ==> fs'[td.filePath].lines == fs[td.filePath].lines[..td.line - 1])
                && (!io.writeFails && td.line > |fs[td.filePath].lines| ==> fs'[td.filePath] == fs[td.filePath])
  {
    var out := PurgeAsWritten(td, Scanned(fs, PurgeTmpName, td.filePath));
    ProtocolOutcome(fs, PurgeTmpName, td.filePath, io, out, fs', aborted);
    if td.filePath != PurgeTmpName && aborted.None? {
      var src := fs[td.filePath].lines;
      assert Scanned(fs, PurgeTmpName, td.filePath) == src;
      SelfPurgeKeepsOrder(td, src);
      if !io.writeFails && 1 <= td.line <= |src| {
        SelfPurgeTruncatesAtTitle(td, src);
      } else if !io.writeFails && td.line > |src| {
        SelfPurgeBeyondEnd(td, src);
      }
    }
  }

  /** What `ChangeTodoStatusToReported` promises about the origin, from its
      protocol run. */
  lemma ReportOutcome(fs: Files, td: Todo, io: IoFaults, fs': Files, err: Option<IoError>)
    requires (fs', err) == Protocol(fs, ReportTmpName, td.filePath, io,
                                    ReportedLines(td, Scanned(fs, ReportTmpName, td.filePath)))
    ensures td.filePath != ReportTmpName && td.filePath in fs && err.Some?
            ==> td.filePath in fs' && fs'[td.filePath] == fs[td.filePath]
    ensures td.filePath != ReportTmpName && err.None?
            ==> td.filePath in fs
                && fs'[td.filePath] == File(Stored(io, ReportedLines(td, fs[td.filePath].lines)), fs[td.filePath].mode)
  {
    var out := ReportedLines(td, Scanned(fs, ReportTmpName, td.filePath));
    ProtocolOutcome(fs, ReportTmpName, td.filePath, io, out, fs', err);
    if td.filePath != ReportTmpName && err.None? {
      assert Scanned(fs, ReportTmpName, td.filePath) == fs[td.filePath].lines;
    }
  }
}
