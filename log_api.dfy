/**
 * The HTTP log service of `api/c2.py`: `write_log` appends timestamped lines
 * to a log file, `read_logs` returns the lines of a time range, and the
 * `do_GET` / `do_POST` handlers validate their requests around them.
 *
 * The log folder is a map from file name to text (a missing key is a
 * missing file); the text is what Python's text mode yields, newlines
 * already translated to `'\n'`.
 */
module LogApi {
  import opened Wrappers
  import opened Text
  import opened Timestamps

  /** LOG_FILES. */
  const LogFiles: map<string, string> :=
    map["infected_1" := "infected_1.log", "infected_2" := "infected_2.log", "control" := "control.log"]

  type Folder = map<string, string>

  /** What `read_logs` returns for a file that does not exist. */
  const NoLogs: seq<string> := ["No logs found."]

  // ---------------------------------------------------------------------------
  // Lines

  /** The concatenation of `ls`. */
  function Concat(ls: seq<string>): string {
    if ls == [] then "" else ls[0] + Concat(ls[1..])
  }

  lemma ConcatCons(head: string, ls: seq<string>)
    ensures Concat([head] + ls) == head + Concat(ls)
  {
    assert ([head] + ls)[1..] == ls;
  }

  /** The index of the first `'\n'` of `s` at or after `from`, or `|s|` when there is none. */
  function NextNewline(s: string, from: nat): (k: nat)
    requires from <= |s|
    ensures from <= k <= |s|
    ensures k < |s| ==> s[k] == '\n'
    decreases |s| - from
  {
    if from == |s| then |s| else if s[from] == '\n' then from else NextNewline(s, from + 1)
  }

  /** No newline lies between `from` and the one `NextNewline` finds. */
  lemma {:induction false} NextNewlineIsFirst(s: string, from: nat)
    requires from <= |s|
    ensures forall j :: from <= j < NextNewline(s, from) ==> s[j] != '\n'
    decreases |s| - from
  {
    if from < |s| && s[from] != '\n' {
      NextNewlineIsFirst(s, from + 1);
    }
  }

  /** A line as a text file yields it: not empty, and no newline before its last character. */
  predicate IsLine(l: string) {
    |l| > 0 && forall j :: 0 <= j < |l| - 1 ==> l[j] != '\n'
  }

  /** The line ends in a newline. */
  predicate Terminated(l: string) {
    |l| > 0 && l[|l| - 1] == '\n'
  }

  /** The lines `for line in f` yields: `text` cut after every `'\n'`, the last line possibly without one. */
  function Lines(text: string): seq<string>
    decreases |text|
  {
    if text == "" then []
    else
      var k := NextNewline(text, 0);
      if k < |text| then [text[..k + 1]] + Lines(text[k + 1..]) else [text]
  }

  /** Cutting a text into lines loses nothing. */
  lemma {:induction false} LinesConcat(text: string)
    ensures Concat(Lines(text)) == text
    decreases |text|
  {
    if text != "" {
      var k := NextNewline(text, 0);
      if k < |text| {
        var head, tail := text[..k + 1], text[k + 1..];
        LinesConcat(tail);
        ConcatCons(head, Lines(tail));
        assert head + tail == text;
      }
    }
  }

  /** Every line is cut at its first newline. */
  lemma {:induction false} LinesAreLines(text: string)
    ensures forall i :: 0 <= i < |Lines(text)| ==> IsLine(Lines(text)[i])
    decreases |text|
  {
    if text != "" {
      var k := NextNewline(text, 0);
      NextNewlineIsFirst(text, 0);
      if k < |text| {
        LinesAreLines(text[k + 1..]);
        var ls := Lines(text);
        assert IsLine(ls[0]);
        assert forall i :: 1 <= i < |ls| ==> ls[i] == Lines(text[k + 1..])[i - 1];
      }
    }
  }

  /** Every line but the last ends in a newline. */
  lemma {:induction false} LinesTerminated(text: string)
    ensures forall i :: 0 <= i < |Lines(text)| - 1 ==> Terminated(Lines(text)[i])
    decreases |text|
  {
    if text != "" {
      var k := NextNewline(text, 0);
      if k < |text| {
        LinesTerminated(text[k + 1..]);
        var ls := Lines(text);
        assert Terminated(ls[0]);
        assert forall i :: 1 <= i < |ls| ==> ls[i] == Lines(text[k + 1..])[i - 1];
      }
    }
  }

  /** The single line of text that has its only newline at the end is the whole of it. */
  lemma LinesOfOneLine(line: string)
    requires IsLine(line) && Terminated(line)
    ensures Lines(line) == [line]
  {
    var k := NextNewline(line, 0);
    NextNewlineIsFirst(line, 0);
    assert k == |line| - 1;
    assert line[..k + 1] == line;
    assert line[k + 1..] == "";
  }

  /** The first newline inside `a` is also the first in `a + b`. */
  lemma {:induction false} NewlineInPrefix(a: string, b: string, from: nat)
    requires from <= |a| && NextNewline(a, from) < |a|
    ensures NextNewline(a + b, from) == NextNewline(a, from)
    decreases |a| - from
  {
    assert (a + b)[from] == a[from];
    if a[from] != '\n' {
      NewlineInPrefix(a, b, from + 1);
    }
  }

  /** Text that ends in a newline has one. */
  lemma TerminatedHasNewline(a: string)
    requires Terminated(a)
    ensures NextNewline(a, 0) < |a|
  {
    NextNewlineIsFirst(a, 0);
  }

  /** The first line of `a` is also the first line of `a + b`, when `a` ends in a newline. */
  lemma SplitFirstLine(a: string, b: string) returns (head: string, rest: string)
    requires a != "" && Terminated(a)
    ensures |rest| < |a| && (rest == "" || Terminated(rest))
    ensures Lines(rest + b) == Lines(rest) + Lines(b) ==> Lines(a + b) == Lines(a) + Lines(b)
  {
    var k := NextNewline(a, 0);
    TerminatedHasNewline(a);
    NewlineInPrefix(a, b, 0);
    head, rest := a[..k + 1], a[k + 1..];
    assert (a + b)[..k + 1] == head;
    assert (a + b)[k + 1..] == rest + b;
    assert Lines(a + b) == [head] + Lines(rest + b);
    assert [head] + (Lines(rest) + Lines(b)) == ([head] + Lines(rest)) + Lines(b);
  }

  /** Appending to text that ends in a newline appends its lines. */
  lemma {:induction false} LinesAppend(a: string, b: string)
    requires a == "" || Terminated(a)
    ensures Lines(a + b) == Lines(a) + Lines(b)
    decreases |a|
  {
    if a == "" {
      assert a + b == b;
    } else {
      var head, rest := SplitFirstLine(a, b);
      LinesAppend(rest, b);
    }
  }

  // ---------------------------------------------------------------------------
  // Universal newlines

  /**
   * What text mode reads back of written text: `"\r\n"` and a lone `'\r'`
   * both read as `'\n'`. A `'\r'` that a `'\n'` follows is dropped, any
   * other `'\r'` becomes `'\n'`.
   */
  function ReadBack(s: string): (r: string)
    ensures '\r' !in r
    decreases |s|
  {
    if s == "" then ""
    else if s[0] == '\r' && |s| > 1 && s[1] == '\n' then ReadBack(s[1..])
    else [if s[0] == '\r' then '\n' else s[0]] + ReadBack(s[1..])
  }

  /** Text without a carriage return reads back unchanged. */
  lemma {:induction false} ReadBackPlain(s: string)
    requires '\r' !in s
    ensures ReadBack(s) == s
    decreases |s|
  {
    if s != "" {
      assert s[0] != '\r' && '\r' !in s[1..];
      ReadBackPlain(s[1..]);
      assert [s[0]] + s[1..] == s;
    }
  }

  /** Two pieces read back one after the other, unless a `'\r'` ending the first and a `'\n'` opening the second make one newline. */
  lemma {:induction false} ReadBackConcat(x: string, y: string)
    requires x == "" || x[|x| - 1] != '\r' || y == "" || y[0] != '\n'
    ensures ReadBack(x + y) == ReadBack(x) + ReadBack(y)
    decreases |x|
  {
    if x == "" {
      assert x + y == y;
    } else {
      assert (x + y)[0] == x[0];
      assert (x + y)[1..] == x[1..] + y;
      assert |x| > 1 ==> (x + y)[1] == x[1];
      ReadBackConcat(x[1..], y);
    }
  }

  // ---------------------------------------------------------------------------
  // write_log

  /** The line `write_log` appends: `"<YYYY-MM-DD HH:MM:SS> - <message>\n"`. */
  function LogLine(now: DateTime, message: string): (r: string)
    requires Valid(now)
    ensures Terminated(r) && StartsWith(r, Format(now))
  {
    Format(now) + " - " + message + "\n"
  }

  /**
   * `write_log(file, message)` at time `now`: append mode, so a missing file
   * is created. The folder holds files as text mode reads them back; since a
   * written line starts with a digit, reading it back does not depend on
   * what the file held before.
   */
  function WriteLog(folder: Folder, file: string, now: DateTime, message: string): (r: Folder)
    requires Valid(now)
    ensures r.Keys == folder.Keys + {file}
    ensures forall f :: f in folder && f != file ==> r[f] == folder[f]
    ensures file in folder ==> r[file] == folder[file] + ReadBack(LogLine(now, message))
    ensures file !in folder ==> r[file] == ReadBack(LogLine(now, message))
  {
    folder[file := Get(folder, file).GetOr("") + ReadBack(LogLine(now, message))]
  }

  /** A formatted time has no `" - "` in it and does not end in `" -"`, so a log line splits right after it. */
  lemma FormatNoEarlyDash(t: DateTime)
    requires Valid(t)
    ensures NoEarlyMatch(Format(t), " - ")
  {
    var s := Format(t);
    forall j: nat | j + 3 <= |s| ensures !OccursAt(s, " - ", j) {
      if s[j] == ' ' {
        assert j == 10;
        assert s[j..j + 3][1] == s[11] != '-';
      } else {
        assert s[j..j + 3][0] == s[j];
      }
    }
    assert s[|s| - 2..][0] == s[17] != ' ';
    DashSeparatorSafe(s);
  }

  /** `read_logs` reads back the time `write_log` put at the head of a line, and that line's message. */
  lemma LogLineSplits(now: DateTime, message: string)
    requires Valid(now)
    ensures After(LogLine(now, message), " - ") == Some(message + "\n")
    ensures Before(LogLine(now, message), " - ") == Format(now)
    ensures LineTime(LogLine(now, message)) == Some(now)
  {
    FormatNoEarlyDash(now);
    SplitConcat(Format(now), " - ", message + "\n");
    assert LogLine(now, message) == Format(now) + " - " + (message + "\n");
    ParseFormat(now);
  }

  /** A message without a line break is written, and read back, as exactly one line. */
  lemma LogLineIsOneLine(now: DateTime, message: string)
    requires Valid(now) && '\n' !in message && '\r' !in message
    ensures ReadBack(LogLine(now, message)) == LogLine(now, message)
    ensures Lines(ReadBack(LogLine(now, message))) == [LogLine(now, message)]
  {
    var line := LogLine(now, message);
    var s := Format(now);
    forall j | 0 <= j < |line| - 1 ensures line[j] != '\n' && line[j] != '\r' {
      if j < 19 {
        assert line[j] == s[j];
        assert IsSeparatorPosition(j) || IsDigit(s[j]);
      } else if j < 22 {
        assert line[j] == " - "[j - 19];
      } else {
        assert line[j] == message[j - 22];
      }
    }
    ReadBackPlain(line);
    LinesOfOneLine(line);
  }

  /** A line break `c` between two pieces without a carriage return reads back as one newline. */
  lemma ReadBackBreak(head: string, c: char, tail: string)
    requires (c == '\n' || c == '\r') && '\r' !in head
    requires |tail| > 0 && '\r' !in tail && tail[0] != '\n'
    ensures ReadBack(head + ([c] + tail)) == head + "\n" + tail
  {
    var rest := [c] + tail;
    ReadBackConcat(head, rest);
    ReadBackPlain(head);
    ReadBackPlain(tail);
    assert rest[0] == c && rest[1..] == tail;
    assert |rest| > 1 && rest[1] == tail[0];
    assert ReadBack(rest) == "\n" + ReadBack(tail);
  }

  /** No line break in a formatted time or the separator after it. */
  lemma StampHasNoBreak(now: DateTime)
    requires Valid(now)
    ensures var p := Format(now) + " - "; '\n' !in p && '\r' !in p
  {
    var s := Format(now);
    var p := s + " - ";
    forall j | 0 <= j < |p| ensures p[j] != '\n' && p[j] != '\r' {
      if j < 19 {
        assert p[j] == s[j];
        assert IsSeparatorPosition(j) || IsDigit(s[j]);
      } else {
        assert p[j] == " - "[j - 19];
      }
    }
  }

  /** A text without a newline, with one added, is a single line. */
  lemma NewlineEndsLine(x: string)
    requires '\n' !in x
    ensures IsLine(x + "\n") && Terminated(x + "\n")
  {
    var l := x + "\n";
    forall j | 0 <= j < |l| - 1 ensures l[j] != '\n' {
      assert l[j] == x[j];
    }
  }

  /** Two single lines one after the other read as those two lines. */
  lemma TwoLines(first: string, second: string)
    requires IsLine(first) && Terminated(first) && IsLine(second) && Terminated(second)
    ensures Lines(first + second) == [first, second]
  {
    LinesAppend(first, second);
    LinesOfOneLine(first);
    LinesOfOneLine(second);
  }

  /** `p + a + c + b + "\n"`, none of the three with a line break, reads back as the two lines `p + a` and `b`. */
  lemma BreakReadsAsTwoLines(p: string, a: string, c: char, b: string)
    requires (c == '\n' || c == '\r') && b != ""
    requires '\n' !in p && '\r' !in p && '\n' !in a && '\r' !in a && '\n' !in b && '\r' !in b
    ensures ReadBack(p + (a + [c] + b) + "\n") == (p + a + "\n") + (b + "\n")
  {
    var head, tail := p + a, b + "\n";
    assert '\r' !in head && '\r' !in tail;
    assert p + (a + [c] + b) + "\n" == head + ([c] + tail);
    ReadBackBreak(head, c, tail);
    assert head + "\n" + tail == (p + a + "\n") + tail;
  }

  /**
   * A message with a line break in it (`c`, a `'\n'` or a lone `'\r'`) is
   * read back as two lines: the log line of the text before the break, and
   * the text after it on a line of its own.
   */
  lemma LogLineWithBreak(now: DateTime, a: string, c: char, b: string)
    requires Valid(now) && (c == '\n' || c == '\r') && b != ""
    requires '\n' !in a && '\r' !in a && '\n' !in b && '\r' !in b
    ensures ReadBack(LogLine(now, a + [c] + b)) == LogLine(now, a) + (b + "\n")
    ensures Lines(ReadBack(LogLine(now, a + [c] + b))) == [LogLine(now, a), b + "\n"]
  {
    StampHasNoBreak(now);
    var p := Format(now) + " - ";
    BreakReadsAsTwoLines(p, a, c, b);
    NewlineEndsLine(p + a);
    NewlineEndsLine(b);
    TwoLines(p + a + "\n", b + "\n");
    assert LogLine(now, a + [c] + b) == p + (a + [c] + b) + "\n";
    assert LogLine(now, a) == p + a + "\n";
  }

  // ---------------------------------------------------------------------------
  // read_logs

  /** The timestamp of a line: the text before its first `" - "`, parsed. `None`: the ValueError of the unpacking or of `strptime`. */
  function LineTime(line: string): Option<DateTime> {
    var k := Find(line, " - ");
    if k < |line| then Parse(line[..k]) else None
  }

  /** A line of the file together with the time read from its head. */
  datatype Stamped = Stamped(line: string, time: Option<DateTime>)

  /** Each line paired with its timestamp. */
  function StampAll(lines: seq<string>): (r: seq<Stamped>)
    ensures |r| == |lines|
    ensures forall i :: 0 <= i < |lines| ==> r[i] == Stamped(lines[i], LineTime(lines[i]))
  {
    if lines == [] then [] else [Stamped(lines[0], LineTime(lines[0]))] + StampAll(lines[1..])
  }

  /** `start_time and log_timestamp < start_time`: the line is skipped. */
  predicate TooEarly(t: DateTime, start: Option<DateTime>) {
    start.Some? && Earlier(t, start.value)
  }

  /** `end_time and log_timestamp > end_time`: the loop stops. */
  predicate TooLate(t: DateTime, end: Option<DateTime>) {
    end.Some? && Earlier(end.value, t)
  }

  /** A line the loop keeps: it parses and lies within the bounds. */
  predicate InRange(l: Stamped, start: Option<DateTime>, end: Option<DateTime>) {
    l.time.Some? && !TooEarly(l.time.value, start) && !TooLate(l.time.value, end)
  }

  /** `Some(prefix + rest)`, or `None` when the rest failed. */
  function Extend(prefix: seq<string>, rest: Option<seq<string>>): Option<seq<string>> {
    if rest.None? then None else Some(prefix + rest.value)
  }

  /** The loop of `read_logs` over its lines: `None` when a line the loop reaches fails to parse. */
  function Scan(ls: seq<Stamped>, start: Option<DateTime>, end: Option<DateTime>): (r: Option<seq<string>>)
    ensures r.Some? ==> |r.value| <= |ls|
  {
    if ls == [] then Some([])
    else
      var t := ls[0].time;
      if t.None? then None
      else if TooEarly(t.value, start) then Scan(ls[1..], start, end)
      else if TooLate(t.value, end) then Some([])
      else Extend([Strip(ls[0].line)], Scan(ls[1..], start, end))
  }

  /** `read_logs(log_file, start_time, end_time)` on a file holding `file` (`None`: no such file). */
  function ReadLogsSpec(file: Option<string>, start: Option<DateTime>, end: Option<DateTime>): Option<seq<string>> {
    if file.None? then Some(NoLogs) else Scan(StampAll(Lines(file.value)), start, end)
  }

  lemma ExtendAssoc(a: seq<string>, b: seq<string>, rest: Option<seq<string>>)
    ensures Extend(a, Extend(b, rest)) == Extend(a + b, rest)
  {
    if rest.Some? {
      assert a + (b + rest.value) == a + b + rest.value;
    }
  }

  /** The `for line in f` loop of `read_logs`, with its `continue` and its `break`. */
  method ScanLines(lines: seq<Stamped>, start: Option<DateTime>, end: Option<DateTime>)
    returns (entries: Option<seq<string>>)
    ensures entries == Scan(lines, start, end)
  {
    var logEntries: seq<string> := [];
    var i := 0;
    assert lines[0..] == lines;
    if Scan(lines, start, end).Some? {
      assert [] + Scan(lines, start, end).value == Scan(lines, start, end).value;
    }
    while i < |lines|
      invariant 0 <= i <= |lines|
      invariant Scan(lines, start, end) == Extend(logEntries, Scan(lines[i..], start, end))
    {
      ghost var rest := lines[i..];
      assert rest[1..] == lines[i + 1..];
      assert rest[0] == lines[i];
      var t := lines[i].time;
      if t.None? {
        assert Scan(rest, start, end) == None;
        return None;
      }
      if TooEarly(t.value, start) {
        assert Scan(rest, start, end) == Scan(lines[i + 1..], start, end);
        i := i + 1;
        continue;
      }
      if TooLate(t.value, end) {
        assert Scan(rest, start, end) == Some([]);
        assert logEntries + [] == logEntries;
        break;
      }
      assert Scan(rest, start, end) == Extend([Strip(lines[i].line)], Scan(lines[i + 1..], start, end));
      ExtendAssoc(logEntries, [Strip(lines[i].line)], Scan(lines[i + 1..], start, end));
      logEntries := logEntries + [Strip(lines[i].line)];
      i := i + 1;
    }
    if i == |lines| {
      assert lines[i..] == [];
      assert logEntries + [] == logEntries;
    }
    entries := Some(logEntries);
  }

  /** `read_logs`: `["No logs found."]` for a missing file, otherwise the loop over its lines. */
  method ReadLogs(file: Option<string>, start: Option<DateTime>, end: Option<DateTime>)
    returns (entries: Option<seq<string>>)
    ensures entries == ReadLogsSpec(file, start, end)
    ensures file.None? ==> entries == Some(["No logs found."])
  {
    if file.None? {
      return Some(NoLogs);
    }
    entries := ScanLines(StampAll(Lines(file.value)), start, end);
  }

  /** Every line, stripped. */
  function StripAll(ls: seq<Stamped>): (r: seq<string>)
    ensures |r| == |ls| && forall i :: 0 <= i < |ls| ==> r[i] == Strip(ls[i].line)
  {
    if ls == [] then [] else [Strip(ls[0].line)] + StripAll(ls[1..])
  }

  /** With no bounds, every line comes back, stripped and in file order. */
  lemma {:induction false} ScanUnbounded(ls: seq<Stamped>)
    requires forall i :: 0 <= i < |ls| ==> ls[i].time.Some?
    ensures Scan(ls, None, None) == Some(StripAll(ls))
  {
    if ls != [] {
      assert ls[0].time.Some?;
      ScanUnbounded(ls[1..]);
    }
  }

  /** Two reads one after the other: `None` when either fails. */
  function Join(first: Option<seq<string>>, second: Option<seq<string>>): Option<seq<string>> {
    if first.None? then None else Extend(first.value, second)
  }

  /** With no bounds, reading `a + b` reads `a`, then `b`. */
  lemma {:induction false} ScanUnboundedConcat(a: seq<Stamped>, b: seq<Stamped>)
    ensures Scan(a + b, None, None) == Join(Scan(a, None, None), Scan(b, None, None))
  {
    if a == [] {
      assert a + b == b;
      if Scan(b, None, None).Some? {
        assert [] + Scan(b, None, None).value == Scan(b, None, None).value;
      }
    } else {
      assert (a + b)[0] == a[0];
      assert (a + b)[1..] == a[1..] + b;
      if a[0].time.Some? {
        ScanUnboundedConcat(a[1..], b);
        var rest, tail := Scan(a[1..], None, None), Scan(b, None, None);
        if rest.Some? && tail.Some? {
          assert [Strip(a[0].line)] + (rest.value + tail.value) == [Strip(a[0].line)] + rest.value + tail.value;
        }
      }
    }
  }

  /**
   * The early `break`: once a line later than `end` is reached, nothing after
   * it is read, so later lines are dropped even when they are in range or
   * would not parse.
   */
  lemma {:induction false} ScanIgnoresAfterLate(pre: seq<Stamped>, late: Stamped, post1: seq<Stamped>, post2: seq<Stamped>,
                                                start: Option<DateTime>, end: Option<DateTime>)
    requires late.time.Some? && !TooEarly(late.time.value, start) && TooLate(late.time.value, end)
    ensures Scan(pre + [late] + post1, start, end) == Scan(pre + [late] + post2, start, end)
  {
    if pre == [] {
      assert ([] + [late] + post1)[0] == late && ([] + [late] + post2)[0] == late;
    } else {
      assert (pre + [late] + post1)[0] == pre[0] && (pre + [late] + post2)[0] == pre[0];
      assert (pre + [late] + post1)[1..] == pre[1..] + [late] + post1;
      assert (pre + [late] + post2)[1..] == pre[1..] + [late] + post2;
      ScanIgnoresAfterLate(pre[1..], late, post1, post2, start, end);
    }
  }

  /** A line the loop reaches and cannot parse makes the whole read fail (the 500 branch of `do_GET`). */
  lemma {:induction false} ScanFailsOnBadLine(ls: seq<Stamped>, k: nat, start: Option<DateTime>, end: Option<DateTime>)
    requires k < |ls| && ls[k].time.None?
    requires forall i :: 0 <= i < k ==>
      ls[i].time.Some? && (TooEarly(ls[i].time.value, start) || !TooLate(ls[i].time.value, end))
    ensures Scan(ls, start, end).None?
  {
    if k > 0 {
      assert ls[0].time.Some?;
      ScanFailsOnBadLine(ls[1..], k - 1, start, end);
    }
  }

  /** Every entry returned is a line, stripped, whose time is neither before `start` nor after `end`. */
  lemma {:induction false} ScanEntriesInRange(ls: seq<Stamped>, start: Option<DateTime>, end: Option<DateTime>)
    requires Scan(ls, start, end).Some?
    ensures forall e :: e in Scan(ls, start, end).value ==>
      exists i :: 0 <= i < |ls| && e == Strip(ls[i].line) && InRange(ls[i], start, end)
  {
    if ls != [] {
      var t := ls[0].time;
      if TooEarly(t.value, start) || !TooLate(t.value, end) {
        ScanEntriesInRange(ls[1..], start, end);
        forall e | e in Scan(ls, start, end).value
          ensures exists i :: 0 <= i < |ls| && e == Strip(ls[i].line) && InRange(ls[i], start, end)
        {
          if TooEarly(t.value, start) || e != Strip(ls[0].line) {
            var i :| 0 <= i < |ls[1..]| && e == Strip(ls[1..][i].line) && InRange(ls[1..][i], start, end);
            assert ls[1..][i] == ls[i + 1];
          } else {
            assert InRange(ls[0], start, end);
          }
        }
      }
    }
  }

  /** The reference selection: the lines within the bounds, stripped, in file order. */
  function InRangeLines(ls: seq<Stamped>, start: Option<DateTime>, end: Option<DateTime>): seq<string> {
    if ls == [] then []
    else (if InRange(ls[0], start, end) then [Strip(ls[0].line)] else []) + InRangeLines(ls[1..], start, end)
  }

  /** `ls[n]` is where the loop breaks: a parsed line not before `start` and after `end`. */
  predicate StopsAt(ls: seq<Stamped>, n: nat, start: Option<DateTime>, end: Option<DateTime>)
    requires n < |ls|
  {
    ls[n].time.Some? && !TooEarly(ls[n].time.value, start) && TooLate(ls[n].time.value, end)
  }

  /**
   * Nothing in range before the break is lost: when every line before index
   * `n` parses and none of them stops the loop, and the loop stops at `n`
   * (or `n` is the end), the result is every in-range line of `ls[..n]`,
   * stripped and in order.
   */
  lemma {:induction false} ScanKeepsEveryInRangeLine(ls: seq<Stamped>, n: nat, start: Option<DateTime>, end: Option<DateTime>)
    requires n <= |ls|
    requires forall i :: 0 <= i < n ==> ls[i].time.Some? && (TooEarly(ls[i].time.value, start) || !TooLate(ls[i].time.value, end))
    requires n < |ls| ==> StopsAt(ls, n, start, end)
    ensures Scan(ls, start, end) == Some(InRangeLines(ls[..n], start, end))
    decreases n
  {
    if n == 0 {
      assert ls[..0] == [];
    } else {
      assert ls[..n][0] == ls[0];
      assert ls[..n][1..] == ls[1..][..n - 1];
      assert forall i :: 0 <= i < n - 1 ==> ls[1..][i] == ls[i + 1];
      assert n - 1 < |ls[1..]| ==> ls[1..][n - 1] == ls[n];
      ScanKeepsEveryInRangeLine(ls[1..], n - 1, start, end);
      var rest := InRangeLines(ls[1..][..n - 1], start, end);
      var t := ls[0].time.value;
      if TooEarly(t, start) {
        assert !InRange(ls[0], start, end);
        assert InRangeLines(ls[..n], start, end) == [] + rest;
        assert [] + rest == rest;
      } else {
        assert InRange(ls[0], start, end);
        assert InRangeLines(ls[..n], start, end) == [Strip(ls[0].line)] + rest;
      }
    }
  }

  // ---------------------------------------------------------------------------
  // The request handlers

  datatype Body =
    | LogEntries(entries: seq<string>)     // json.dumps(logs)
    | Status(status: string)               // json.dumps({'status': ...})
    | Text(text: string)                   // a plain error text

  datatype Response = Response(code: int, body: Body)

  const InvalidTarget := Response(400, Text("Invalid target specified."))
  const RetrieveError := Response(500, Text("Error occurred while retrieving logs."))
  const MissingFields := Response(400, Text("Missing required fields (sender, receiver, message)."))
  const RelayError := Response(500, Text("Error occurred while relaying message."))
  const Relayed := Response(200, Status("Message relayed successfully."))

  /** `query.get(key, [''])[0]`: the first value of a query parameter, or `""`. */
  function Param(query: map<string, string>, key: string): string {
    Get(query, key).GetOr("")
  }

  /** A `start` or `end` parameter: absent when empty, otherwise parsed (`None` inside: its ValueError). */
  function Bound(text: string): (r: Option<Option<DateTime>>)
    ensures r == Some(None) <==> text == ""
    ensures r.Some? && r.value.Some? ==> Valid(r.value.value) && Format(r.value.value) == text
    ensures r.None? <==> text != "" && Parse(text).None?
  {
    if text == "" then Some(None)
    else if Parse(text).None? then None
    else Some(Parse(text))
  }

  /** `do_GET`: an unknown target is refused before any file is read; a bad bound or a bad line is a 500. */
  function DoGet(query: map<string, string>, folder: Folder): (r: Response)
    ensures r.code == 400 <==> Param(query, "target") !in LogFiles
    ensures r.code == 400 ==> r == InvalidTarget
    ensures r.code != 400 ==> r == RetrieveError || (r.code == 200 && r.body.LogEntries?)
    ensures Param(query, "target") in LogFiles ==>
      var start, end := Bound(Param(query, "start")), Bound(Param(query, "end"));
      var file := Get(folder, LogFiles[Param(query, "target")]);
      && (r == RetrieveError <==> start.None? || end.None? || ReadLogsSpec(file, start.value, end.value).None?)
      && (r.code == 200 ==>
            start.Some? && end.Some? && ReadLogsSpec(file, start.value, end.value).Some?
            && r.body == LogEntries(ReadLogsSpec(file, start.value, end.value).value))
  {
    var target := Param(query, "target");
    if target !in LogFiles then InvalidTarget
    else
      var start, end := Bound(Param(query, "start")), Bound(Param(query, "end"));
      if start.None? || end.None? then RetrieveError
      else
        var logs := ReadLogsSpec(Get(folder, LogFiles[target]), start.value, end.value);
        if logs.None? then RetrieveError else Response(200, LogEntries(logs.value))
  }

  /** A GET for an unknown target does not depend on the log folder at all. */
  lemma GetInvalidTargetReadsNothing(query: map<string, string>, f1: Folder, f2: Folder)
    requires Param(query, "target") !in LogFiles
    ensures DoGet(query, f1) == DoGet(query, f2) == InvalidTarget
  {
  }

  /** A GET for a known log whose file does not exist answers 200 with `["No logs found."]`. */
  lemma GetMissingFile(query: map<string, string>, folder: Folder)
    requires Param(query, "target") in LogFiles && LogFiles[Param(query, "target")] !in folder
    requires Bound(Param(query, "start")).Some? && Bound(Param(query, "end")).Some?
    ensures DoGet(query, folder) == Response(200, LogEntries(["No logs found."]))
  {
  }

  /** The log a POST from `sender` goes to: `control.log` for `control`, else `LOG_FILES['infected_<sender>']`; `None`: its KeyError. */
  function SenderLog(sender: string): (r: Option<string>)
    ensures sender == "control" ==> r == Some("control.log")
    ensures sender == "1" ==> r == Some("infected_1.log")
    ensures sender == "2" ==> r == Some("infected_2.log")
    ensures sender != "control" && sender != "1" && sender != "2" ==> r.None?
  {
    if sender == "control" then Some(LogFiles["control"])
    else
      var key := "infected_" + sender;
      assert key[9..] == sender && |key| >= 9;
      assert sender == "1" ==> key == "infected_1";
      assert sender == "2" ==> key == "infected_2";
      assert "infected_1"[9..] == "1" && "infected_2"[9..] == "2";
      Get(LogFiles, key)
  }

  /** The response of `do_POST` and the log folder after it. */
  datatype PostResult = PostResult(response: Response, folder: Folder)

  /** The text `do_POST` logs: `f"Sent to {receiver}: {message}"`. */
  function RelayText(receiver: string, message: string): string {
    "Sent to " + receiver + ": " + message
  }

  /** `str(n)` for a non-negative integer. */
  function NatToString(n: nat): (s: string)
    ensures |s| > 0 && forall i :: 0 <= i < |s| ==> IsDigit(s[i])
    ensures Decimal(s, 0, |s|) == n
    ensures |s| == 1 || s[0] != '0'
  {
    if n < 10 then [Digit(n)]
    else
      var p := NatToString(n / 10);
      DecimalAppend(p, Digit(n % 10), |p|);
      p + [Digit(n % 10)]
  }

  /** The digits of a prefix keep their value when a character is appended. */
  lemma {:induction false} DecimalAppend(s: string, c: char, len: nat)
    requires len <= |s| && forall i :: 0 <= i < len ==> IsDigit(s[i])
    ensures Decimal(s + [c], 0, len) == Decimal(s, 0, len)
    decreases len
  {
    if len > 0 {
      DecimalAppend(s, c, len - 1);
      assert (s + [c])[len - 1] == s[len - 1];
    }
  }

  /** The name of the dump of an attached file: `f"{sender}_to_{receiver}_{int(time.time())}.bin"`. */
  function DumpName(sender: string, receiver: string, stamp: nat): string {
    sender + "_to_" + receiver + "_" + NatToString(stamp) + ".bin"
  }

  /** A dump never overwrites a log file: its name ends in `.bin`, theirs in `.log`. */
  lemma DumpIsNotALog(sender: string, receiver: string, stamp: nat, target: string)
    requires target in LogFiles
    ensures DumpName(sender, receiver, stamp) != LogFiles[target]
  {
    var d := DumpName(sender, receiver, stamp);
    assert d[|d| - 1] == 'n';
    assert LogFiles[target][|LogFiles[target]| - 1] == 'g';
  }

  /**
   * `do_POST` on an already decoded body (missing and empty fields are
   * both falsy), at time `now`, with `stamp` the whole seconds of
   * `time.time()`: 400 and nothing written unless sender, receiver and
   * message are all given; 500 and nothing written for an unknown sender;
   * otherwise one line appended to the sender's log and, when a `file` is
   * attached, that text stored under its dump name.
   */
  function DoPost(body: map<string, string>, folder: Folder, now: DateTime, stamp: nat): (r: PostResult)
    requires Valid(now)
    ensures r.response == MissingFields <==> (Param(body, "sender") == "" || Param(body, "receiver") == "" || Param(body, "message") == "")
    ensures r.response != Relayed ==> r.folder == folder
    ensures r.response == RelayError <==> r.response != MissingFields && SenderLog(Param(body, "sender")).None?
    ensures r.response == MissingFields || r.response == RelayError || r.response == Relayed
    ensures r.response == Relayed ==>
      var log := SenderLog(Param(body, "sender")).value;
      var dump := DumpName(Param(body, "sender"), Param(body, "receiver"), stamp);
      var attached := Param(body, "file");
      && r.folder.Keys == folder.Keys + {log} + (if attached == "" then {} else {dump})
      && (forall f :: f in folder && f != log && (attached == "" || f != dump) ==> r.folder[f] == folder[f])
      && r.folder[log] == Get(folder, log).GetOr("") + ReadBack(LogLine(now, RelayText(Param(body, "receiver"), Param(body, "message"))))
      && (attached != "" ==> r.folder[dump] == attached)
  {
    var sender, receiver, message := Param(body, "sender"), Param(body, "receiver"), Param(body, "message");
    if sender == "" || receiver == "" || message == "" then PostResult(MissingFields, folder)
    else
      var log := SenderLog(sender);
      if log.None? then PostResult(RelayError, folder)
      else
        var logged := WriteLog(folder, log.value, now, RelayText(receiver, message));
        var attached := Param(body, "file");
        if attached == "" then PostResult(Relayed, logged)
        else
          var dump := DumpName(sender, receiver, stamp);
          assert dump != log.value by {
            assert dump[|dump| - 1] == 'n';
            assert log.value[|log.value| - 1] == 'g';
          }
          PostResult(Relayed, logged[dump := attached])
  }

  lemma StampAllConcat(a: seq<string>, b: seq<string>)
    ensures StampAll(a + b) == StampAll(a) + StampAll(b)
  {
    assert forall i :: 0 <= i < |a| ==> (a + b)[i] == a[i];
    assert forall i :: 0 <= i < |b| ==> (a + b)[|a| + i] == b[i];
  }

  /** With no bounds, a parsed line appended to what was read is read after it. */
  lemma ScanAppendUnbounded(ls: seq<Stamped>, l: Stamped, before: seq<string>)
    requires Scan(ls, None, None) == Some(before) && l.time.Some?
    ensures Scan(ls + [l], None, None) == Some(before + [Strip(l.line)])
  {
    ScanUnboundedConcat(ls, [l]);
    assert [l][1..] == [];
    assert Scan([l], None, None) == Some([Strip(l.line)] + []);
    assert [Strip(l.line)] + [] == [Strip(l.line)];
  }

  /** The lines of a log after `write_log` of a message without a line break: the old lines, then the new one, which parses. */
  lemma StampAfterWrite(text: string, now: DateTime, message: string)
    requires Valid(now) && '\n' !in message && '\r' !in message
    requires text == "" || Terminated(text)
    ensures StampAll(Lines(text + ReadBack(LogLine(now, message)))) == StampAll(Lines(text)) + [Stamped(LogLine(now, message), Some(now))]
  {
    var line := LogLine(now, message);
    LinesAppend(text, line);
    LogLineIsOneLine(now, message);
    LogLineSplits(now, message);
    StampAllConcat(Lines(text), [line]);
    assert StampAll([line]) == [Stamped(line, LineTime(line))];
  }

  /** Reading a log after `write_log` appended a message without a line break reads what it read before, then that line. */
  lemma ReadAfterWrite(text: string, now: DateTime, message: string, before: seq<string>)
    requires Valid(now) && '\n' !in message && '\r' !in message
    requires text == "" || Terminated(text)
    requires Scan(StampAll(Lines(text)), None, None) == Some(before)
    ensures Scan(StampAll(Lines(text + ReadBack(LogLine(now, message)))), None, None) == Some(before + [Strip(LogLine(now, message))])
  {
    StampAfterWrite(text, now, message);
    ScanAppendUnbounded(StampAll(Lines(text)), Stamped(LogLine(now, message), Some(now)), before);
  }

  /** A line with no `" - "` has no timestamp. */
  lemma NoDashNoTime(line: string)
    requires !Contains(line, " - ")
    ensures LineTime(line).None?
  {
  }

  /** Text that reads as two lines, appended to a log, adds those two lines with their timestamps. */
  lemma StampTwoAppended(text: string, written: string, first: string, second: string)
    requires text == "" || Terminated(text)
    requires Lines(written) == [first, second]
    ensures StampAll(Lines(text + written))
      == StampAll(Lines(text)) + [Stamped(first, LineTime(first)), Stamped(second, LineTime(second))]
  {
    LinesAppend(text, written);
    StampAllConcat(Lines(text), [first, second]);
  }

  /** With no bounds, a read that reaches a line without a timestamp fails, whatever came before. */
  lemma ScanFailsAfter(ls: seq<Stamped>, good: Stamped, bad: Stamped)
    requires Scan(ls, None, None).Some? && good.time.Some? && bad.time.None?
    ensures Scan(ls + [good, bad], None, None).None?
  {
    assert [good, bad][1..] == [bad];
    ScanUnboundedConcat(ls, [good, bad]);
  }

  /** Text that reads as a parsed line and then an unparsed one, appended to a log that reads, makes the unbounded read fail. */
  lemma ScanFailsOnSecondLine(text: string, written: string, first: string, second: string)
    requires text == "" || Terminated(text)
    requires Scan(StampAll(Lines(text)), None, None).Some?
    requires Lines(written) == [first, second] && LineTime(first).Some? && LineTime(second).None?
    ensures Scan(StampAll(Lines(text + written)), None, None).None?
  {
    StampTwoAppended(text, written, first, second);
    ScanFailsAfter(StampAll(Lines(text)), Stamped(first, LineTime(first)), Stamped(second, LineTime(second)));
  }

  /** A line break followed by text without `" - "` leaves a line without a timestamp. */
  lemma TailHasNoTime(b: string)
    requires !Contains(b, " - ")
    ensures LineTime(b + "\n").None?
  {
    AppendForeignChar(b, '\n', " - ");
    NoDashNoTime(b + "\n");
  }

  /**
   * Reading a log after `write_log` appended a message whose line break is
   * followed by text without `" - "`: the second line does not unpack, so
   * the whole read fails.
   */
  lemma ReadAfterBrokenWrite(text: string, now: DateTime, a: string, c: char, b: string)
    requires Valid(now) && (c == '\n' || c == '\r') && b != ""
    requires '\n' !in a && '\r' !in a && '\n' !in b && '\r' !in b && !Contains(b, " - ")
    requires text == "" || Terminated(text)
    requires Scan(StampAll(Lines(text)), None, None).Some?
    ensures Scan(StampAll(Lines(text + ReadBack(LogLine(now, a + [c] + b)))), None, None).None?
  {
    LogLineWithBreak(now, a, c, b);
    LogLineSplits(now, a);
    TailHasNoTime(b);
    ScanFailsOnSecondLine(text, ReadBack(LogLine(now, a + [c] + b)), LogLine(now, a), b + "\n");
  }

  /** A GET naming only a known target reads the whole of its log. */
  lemma GetUnbounded(target: string, folder: Folder)
    requires target in LogFiles
    ensures var logs := ReadLogsSpec(Get(folder, LogFiles[target]), None, None);
      DoGet(map["target" := target], folder) == if logs.None? then RetrieveError else Response(200, LogEntries(logs.value))
  {
    var q := map["target" := target];
    assert Param(q, "target") == target && Param(q, "start") == "" && Param(q, "end") == "";
  }

  /**
   * Round trip of the two handlers: after a successful POST, an unbounded GET
   * of that log returns what it returned before, followed by the new line,
   * stripped, provided the file was empty, missing or ended in a newline, and
   * the relayed text has no line break.
   */
  lemma PostThenGet(body: map<string, string>, folder: Folder, now: DateTime, stamp: nat, target: string, before: seq<string>)
    requires Valid(now)
    requires DoPost(body, folder, now, stamp).response == Relayed
    requires target in LogFiles && Some(LogFiles[target]) == SenderLog(Param(body, "sender"))
    requires var text := Get(folder, LogFiles[target]).GetOr("");
      (text == "" || Terminated(text)) && Scan(StampAll(Lines(text)), None, None) == Some(before)
    requires var m := RelayText(Param(body, "receiver"), Param(body, "message")); '\n' !in m && '\r' !in m
    ensures DoGet(map["target" := target], DoPost(body, folder, now, stamp).folder)
      == Response(200, LogEntries(before + [Strip(LogLine(now, RelayText(Param(body, "receiver"), Param(body, "message"))))]))
  {
    var file := LogFiles[target];
    var text := Get(folder, file).GetOr("");
    var message := RelayText(Param(body, "receiver"), Param(body, "message"));
    var after := DoPost(body, folder, now, stamp).folder;
    assert Get(after, file) == Some(text + ReadBack(LogLine(now, message)));
    ReadAfterWrite(text, now, message, before);
    GetUnbounded(target, after);
  }

  /**
   * The other side of the round trip: when the relayed text breaks into a
   * second line that has no `" - "`, the later unbounded GET of that log
   * answers the 500 text, though the POST itself answered 200.
   */
  lemma PostBrokenThenGet(body: map<string, string>, folder: Folder, now: DateTime, stamp: nat, target: string,
                          a: string, c: char, b: string)
    requires Valid(now)
    requires DoPost(body, folder, now, stamp).response == Relayed
    requires target in LogFiles && Some(LogFiles[target]) == SenderLog(Param(body, "sender"))
    requires var text := Get(folder, LogFiles[target]).GetOr("");
      (text == "" || Terminated(text)) && Scan(StampAll(Lines(text)), None, None).Some?
    requires RelayText(Param(body, "receiver"), Param(body, "message")) == a + [c] + b
    requires (c == '\n' || c == '\r') && b != ""
    requires '\n' !in a && '\r' !in a && '\n' !in b && '\r' !in b && !Contains(b, " - ")
    ensures DoGet(map["target" := target], DoPost(body, folder, now, stamp).folder) == RetrieveError
  {
    var file := LogFiles[target];
    var text := Get(folder, file).GetOr("");
    var after := DoPost(body, folder, now, stamp).folder;
    assert Get(after, file) == Some(text + ReadBack(LogLine(now, a + [c] + b)));
    ReadAfterBrokenWrite(text, now, a, c, b);
    GetUnbounded(target, after);
  }

  /** The body of a relay from `control` to `r` saying `"x\ry"`. */
  function CarriageReturnPost(): map<string, string> {
    map["sender" := "control", "receiver" := "r", "message" := "x\ry"]
  }

  /** Its three fields. */
  lemma CarriageReturnFields()
    ensures Param(CarriageReturnPost(), "sender") == "control"
    ensures Param(CarriageReturnPost(), "receiver") == "r"
    ensures Param(CarriageReturnPost(), "message") == "x\ry"
  {
  }

  /** That relay is answered 200 and writes `control`'s log. */
  lemma CarriageReturnRelayed(now: DateTime, stamp: nat)
    requires Valid(now)
    ensures DoPost(CarriageReturnPost(), map[], now, stamp).response == Relayed
    ensures RelayText(Param(CarriageReturnPost(), "receiver"), Param(CarriageReturnPost(), "message")) == "Sent to r: x" + ['\r'] + "y"
    ensures Some(LogFiles["control"]) == SenderLog(Param(CarriageReturnPost(), "sender"))
  {
    CarriageReturnFields();
  }

  /** For instance: relaying `"x\ry"` into an empty folder is answered 200, and the next GET of `control` 500. */
  lemma CarriageReturnBreaksLog(now: DateTime, stamp: nat)
    requires Valid(now)
    ensures DoPost(CarriageReturnPost(), map[], now, stamp).response == Relayed
    ensures DoGet(map["target" := "control"], DoPost(CarriageReturnPost(), map[], now, stamp).folder) == RetrieveError
  {
    CarriageReturnRelayed(now, stamp);
    assert Get(map[], LogFiles["control"]).GetOr("") == "";
    assert Lines("") == [];
    var a, b := "Sent to r: x", "y";
    assert '\n' !in a && '\r' !in a;
    assert !Contains(b, " - ");
    PostBrokenThenGet(CarriageReturnPost(), map[], now, stamp, "control", a, '\r', b);
  }
}
