/** The schema loader (backend/db/run_schema.py): the lines of schema.sql are filtered,
    buffered into statements that end at a line ending in ';', and each statement that is
    not one of the skipped kinds is executed, in file order.  The database connection is
    left out: executing a statement appends it to the list the loader returns. */
module RunSchema {
  import opened Base

  /** set(stripped) == {"-"}: a non-empty line made only of dashes. */
  predicate DashesOnly(stripped: string) {
    |stripped| > 0 && forall i | 0 <= i < |stripped| :: stripped[i] == '-'
  }

  /** A blank line, a comment line or a line of dashes; it never reaches the buffer. */
  predicate Dropped(line: string) {
    var stripped := Strip(line);
    stripped == [] || StartsWith(stripped, "--") || StartsWith(stripped, "#") ||
    StartsWith(stripped, "/*") || DashesOnly(stripped)
  }

  /** A kept line that closes the statement being buffered. */
  predicate Terminates(line: string) {
    !Dropped(line) && EndsWith(Strip(line), ";")
  }

  /** should_skip_statement */
  predicate ShouldSkip(sqlUpper: string) {
    StartsWith(sqlUpper, "DELIMITER") || StartsWith(sqlUpper, "SET GLOBAL") ||
    StartsWith(sqlUpper, "DROP EVENT") || StartsWith(sqlUpper, "CREATE EVENT") ||
    StartsWith(sqlUpper, "CREATE DATABASE") || StartsWith(sqlUpper, "USE ")
  }

  /** "".join(stmt_buf) */
  function Concat(buf: seq<string>): string {
    if buf == [] then "" else Concat(buf[..|buf| - 1]) + buf[|buf| - 1]
  }

  /** The joined buffer, stripped, without one trailing ';', stripped again. */
  function Statement(buf: seq<string>): string {
    var full := Strip(Concat(buf));
    if EndsWith(full, ";") then Strip(full[..|full| - 1]) else full
  }

  /** The statements executed and the buffer, after a prefix of the file. */
  datatype Progress = Progress(executed: seq<string>, buf: seq<string>)

  /** What executing a finished statement adds: nothing when it is of a skipped kind. */
  function Emit(stmt: string): (r: seq<string>)
    ensures forall s | s in r :: !ShouldSkip(Upper(s))
  {
    if ShouldSkip(Upper(stmt)) then [] else [stmt]
  }

  function Feed(p: Progress, line: string): Progress {
    if Dropped(line) then p
    else if !EndsWith(Strip(line), ";") then p.(buf := p.buf + [line])
    else Progress(p.executed + Emit(Statement(p.buf + [line])), [])
  }

  function Run(lines: seq<string>): Progress {
    if lines == [] then Progress([], []) else Feed(Run(lines[..|lines| - 1]), lines[|lines| - 1])
  }

  lemma RunSnoc(lines: seq<string>, k: nat)
    requires k < |lines|
    ensures Run(lines[..k + 1]) == Feed(Run(lines[..k]), lines[k])
  {
    assert lines[..k + 1][..k] == lines[..k];
  }

  /** A line that does not terminate executes nothing and at most joins the buffer. */
  lemma FeedNonTerminating(p: Progress, line: string)
    requires !Terminates(line)
    ensures Feed(p, line).executed == p.executed
    ensures Feed(p, line).buf == p.buf || Feed(p, line).buf == p.buf + [line]
  {
  }

  /** One pass of the line loop: skip, buffer, or close and execute the statement. */
  method ProcessLine(executed: seq<string>, stmtBuf: seq<string>, line: string)
    returns (executed': seq<string>, stmtBuf': seq<string>)
    ensures Progress(executed', stmtBuf') == Feed(Progress(executed, stmtBuf), line)
  {
    executed', stmtBuf' := executed, stmtBuf;
    if Dropped(line) {
      return;
    }
    stmtBuf' := stmtBuf' + [line];
    if EndsWith(Strip(line), ";") {
      var fullStmt := Statement(stmtBuf');
      stmtBuf' := [];
      if !ShouldSkip(Upper(fullStmt)) {
        executed' := executed' + [fullStmt];
      }
    }
  }

  /** The line loop of main(); `cur.execute` appends to `executed`. */
  method ApplySchema(lines: seq<string>) returns (executed: seq<string>)
    ensures executed == Run(lines).executed
  {
    executed := [];
    var stmtBuf: seq<string> := [];
    var k := 0;
    while k < |lines|
      invariant 0 <= k <= |lines|
      invariant Progress(executed, stmtBuf) == Run(lines[..k])
    {
      RunSnoc(lines, k);
      executed, stmtBuf := ProcessLine(executed, stmtBuf, lines[k]);
      k := k + 1;
    }
    assert lines[..k] == lines;
  }

  datatype Outcome = FileNotFound | Applied(executed: seq<string>)

  /** main(): a missing schema.sql raises before any connection is opened. */
  method LoadSchema(schema: Option<seq<string>>) returns (outcome: Outcome)
    ensures schema.None? <==> outcome == FileNotFound
    ensures schema.Some? ==> outcome == Applied(Run(schema.value).executed)
  {
    if schema.None? {
      return FileNotFound;
    }
    var executed := ApplySchema(schema.value);
    return Applied(executed);
  }

  // ------------------------------------------------------------ properties

  /** No executed statement is of a skipped kind. */
  lemma {:induction false} ExecutedNotSkipped(lines: seq<string>)
    ensures forall s | s in Run(lines).executed :: !ShouldSkip(Upper(s))
  {
    if lines != [] {
      var p := Run(lines[..|lines| - 1]);
      ExecutedNotSkipped(lines[..|lines| - 1]);
      assert Run(lines).executed == p.executed || Run(lines).executed == p.executed + Emit(Statement(p.buf + [lines[|lines| - 1]]));
    }
  }

  /** The buffer holds the kept lines since the last terminating line, none of which
      terminates: a ';' inside a line does not end a statement. */
  lemma {:induction false} BufferSinceLastTerminator(lines: seq<string>)
    ensures forall l | l in Run(lines).buf :: !Dropped(l) && !Terminates(l)
  {
    if lines != [] {
      BufferSinceLastTerminator(lines[..|lines| - 1]);
    }
  }

  /** Lines that do not terminate a statement execute nothing: comments, blank lines and
      trailing text without a ';' are never executed, and the kept ones wait in the buffer. */
  lemma RunAppendOne(xs: seq<string>, line: string)
    ensures Run(xs + [line]) == Feed(Run(xs), line)
  {
    assert (xs + [line])[..|xs|] == xs;
  }

  lemma {:induction false} NonTerminatingLinesExecuteNothing(lines: seq<string>, extra: seq<string>)
    requires forall i | 0 <= i < |extra| :: !Terminates(extra[i])
    ensures Run(lines + extra).executed == Run(lines).executed
    ensures Run(lines).buf <= Run(lines + extra).buf
  {
    if extra != [] {
      var init := extra[..|extra| - 1];
      var line := extra[|extra| - 1];
      assert lines + extra == (lines + init) + [line];
      NonTerminatingLinesExecuteNothing(lines, init);
      var p := Run(lines + init);
      FeedNonTerminating(p, line);
      RunAppendOne(lines + init, line);
      assert p.buf <= p.buf + [line];
    } else {
      assert lines + extra == lines;
    }
  }

  /** A terminating line empties the buffer and executes at most the one statement built
      from it, after everything executed before. */
  lemma TerminatorFlushes(lines: seq<string>, line: string)
    requires Terminates(line)
    ensures var before := Run(lines);
      var after := Run(lines + [line]);
      var stmt := Statement(before.buf + [line]);
      after.buf == [] &&
      after.executed == before.executed + (if ShouldSkip(Upper(stmt)) then [] else [stmt])
  {
    assert (lines + [line])[..|lines|] == lines;
  }

  /** The stripped text of the joined buffer ends with ';' when its last line does, so the
      emitted statement is that text with exactly one trailing ';' removed. */
  lemma TerminatedStatement(buf: seq<string>, line: string)
    requires Terminates(line)
    ensures var full := Strip(Concat(buf + [line]));
      EndsWith(full, ";") && Statement(buf + [line]) == Strip(full[..|full| - 1])
  {
    var q := StripEndsWithSemicolon(line);
    JoinedEndsWithSemicolon(Concat(buf), line, q);
    assert Concat(buf + [line]) == Concat(buf) + line;
  }

  lemma JoinedEndsWithSemicolon(b: string, line: string, q: nat)
    requires q < |line| && line[q] == ';' && IsBlank(line[q + 1..])
    ensures EndsWith(Strip(b + line), ";")
  {
    assert (b + line)[|b| + q] == ';';
    assert (b + line)[|b| + q + 1..] == line[q + 1..];
    SemicolonEndsStrip(b + line, |b| + q);
  }

  // Strip and a last non-blank ';'.

  /** The position of the final ';' in a line whose stripped text ends with ';'. */
  lemma StripEndsWithSemicolon(s: string) returns (q: nat)
    requires EndsWith(Strip(s), ";")
    ensures q < |s| && s[q] == ';' && IsBlank(s[q + 1..])
  {
    var t := TrimLeft(s);
    var r := TrimRight(t);
    var offset := |s| - |t|;
    EndsWithSemicolon(r);
    q := offset + |r| - 1;
    assert t[|r| - 1] == ';';
    assert s[q + 1..] == t[|r|..];
  }

  lemma EndsWithSemicolon(r: string)
    requires EndsWith(r, ";")
    ensures |r| > 0 && r[|r| - 1] == ';'
  {
    assert r[|r| - 1..][0] == r[|r| - 1];
  }

  lemma SemicolonEndsStrip(s: string, q: nat)
    requires q < |s| && s[q] == ';' && IsBlank(s[q + 1..])
    ensures EndsWith(Strip(s), ";")
  {
    TrimLeftStopsBefore(s, q);
    var t := TrimLeft(s);
    var offset := |s| - |t|;
    var q' := q - offset;
    assert t[q'] == ';';
    forall i | q' < i < |t|
      ensures IsSpace(t[i])
    {
      assert t[i] == s[offset + i] == s[q + 1..][i - q' - 1];
    }
    TrimRightKeepsThrough(t, q');
    LastCharSemicolon(TrimRight(t), t, q');
  }

  lemma LastCharSemicolon(r: string, t: string, q: nat)
    requires q < |t| && t[q] == ';' && |r| == q + 1 && r == t[..|r|]
    ensures EndsWith(r, ";")
  {
    assert r[|r| - 1] == ';';
    assert r[|r| - 1..] == ";";
  }

  /** TrimLeft removes nothing past a non-blank character. */
  lemma TrimLeftStopsBefore(s: string, q: nat)
    requires q < |s| && !IsSpace(s[q])
    ensures |s| - |TrimLeft(s)| <= q
  {
    var offset := |s| - |TrimLeft(s)|;
    forall i | 0 <= i < offset
      ensures IsSpace(s[i])
    {
      assert s[..offset][i] == s[i];
    }
  }

  /** TrimRight keeps a text up to its last non-blank character. */
  lemma TrimRightKeepsThrough(t: string, q: nat)
    requires q < |t| && !IsSpace(t[q]) && forall i | q < i < |t| :: IsSpace(t[i])
    ensures |TrimRight(t)| == q + 1
  {
    var r := TrimRight(t);
    forall i | |r| <= i < |t|
      ensures IsSpace(t[i])
    {
      assert t[|r|..][i - |r|] == t[i];
    }
    assert |r| > q;
    assert r[|r| - 1] == t[|r| - 1];
  }
}
