/**
 * `parseAndImportCdmFile`: streaming import of a delimited-text file. The
 * file arrives as a sequence of decoded chunks; the importer carries the
 * unfinished last line of each chunk into the next, sniffs the delimiter and
 * the header row once, parses every complete line, flushes its buffer to the
 * store when it holds at least a batch after a chunk, and reports progress
 * after every chunk and 100 at the very end.
 */
module Ingestion {
  import opened Numbers
  import opened Wrappers
  import opened Text
  import opened Seqs
  import opened Types
  import opened EventStore
  import opened CsvRow

  /** Buffered events that trigger a write to the store. */
  const BatchSize: nat := 1000

  /**
   * One decoded chunk, with the progress percentage the source computes after
   * reading it (`Math.round(processedBytes / totalSize * 100)`).
   */
  datatype Chunk = Chunk(text: string, percent: nat)

  /** What the importer does to the outside world: a `saveEventsToDb` call or an `onProgress` call. */
  datatype Effect = Save(batch: seq<CdmEvent>) | Progress(percent: nat)

  /**
   * The loop state of the source, plus two logs: `log` of the effects in the
   * order they happen and `fed` of the lines handed to the row parser.
   */
  datatype Importer = Importer(
    leftover: string,
    isFirstChunk: bool,
    headers: seq<string>,
    delimiter: char,
    buffer: seq<CdmEvent>,
    lineIndex: nat,
    log: seq<Effect>,
    fed: seq<string>)

  const Start := Importer("", true, [], ',', [], 0, [], [])

  /** Tab if the header line has one, else semicolon if it has one, else comma. */
  function SniffDelimiter(line: string): (d: char)
    ensures d == '\t' <==> '\t' in line
    ensures d == ';' <==> '\t' !in line && ';' in line
    ensures d == ',' <==> '\t' !in line && ';' !in line
  {
    if '\t' in line then '\t' else if ';' in line then ';' else ','
  }

  /** `firstLine.toLowerCase().split(delimiter).map(h => h.trim())` */
  function ParseHeaders(line: string, delimiter: char): seq<string> {
    SplitTrimmed(Lower(line), delimiter)
  }

  /**
   * `(leftover + chunk).split('\n')` with the last piece popped off: the
   * complete lines and the new leftover. No line and no leftover holds a
   * line break, and joining them back gives exactly the old leftover
   * followed by the chunk.
   */
  function Reassemble(leftover: string, chunk: string): (r: (seq<string>, string))
    ensures '\n' !in r.1
    ensures forall k :: 0 <= k < |r.0| ==> '\n' !in r.0[k]
    ensures Join(r.0 + [r.1], '\n') == leftover + chunk
    ensures r.0 + [r.1] == Split(leftover + chunk, '\n')
  {
    var lines := Split(leftover + chunk, '\n');
    JoinSplit(leftover + chunk, '\n');
    assert lines == lines[..|lines| - 1] + [lines[|lines| - 1]];
    (lines[..|lines| - 1], lines[|lines| - 1])
  }

  /** A row parser with the file's delimiter and headers fixed: line and line index to event. */
  type LineParser = (string, nat) -> Option<CdmEvent>

  /** The row parser for each delimiter and header row. */
  type RowParsers = (char, seq<string>) -> LineParser

  /** `parseCsvLine` under a given policy and environment. */
  function CsvRows(policy: PolicyConfig, env: Environment): RowParsers {
    (delimiter: char, headers: seq<string>) =>
      (line: string, index: nat) => ParseCsvLine(line, delimiter, headers, policy, index, env)
  }

  /** The events `parse` accepts from `lines`, the lines numbered from `start`, in order. */
  function Accepted(lines: seq<string>, parse: LineParser, start: nat): seq<CdmEvent> {
    if |lines| == 0 then []
    else
      var n := |lines| - 1;
      Accepted(lines[..n], parse, start)
        + match parse(lines[n], start + n)
          case Some(e) => [e]
          case None => []
  }

  lemma {:induction false} AcceptedAppend(a: seq<string>, b: seq<string>, parse: LineParser, start: nat)
    ensures Accepted(a + b, parse, start) == Accepted(a, parse, start) + Accepted(b, parse, start + |a|)
    decreases |b|
  {
    if |b| == 0 {
      assert a + b == a;
    } else {
      var n := |b| - 1;
      assert (a + b)[..|a + b| - 1] == a + b[..n];
      assert (a + b)[|a + b| - 1] == b[n];
      AcceptedAppend(a, b[..n], parse, start);
    }
  }

  /** The batches written, in order. */
  function Saves(log: seq<Effect>): seq<seq<CdmEvent>> {
    if |log| == 0 then []
    else
      var last := log[|log| - 1];
      Saves(log[..|log| - 1]) + if last.Save? then [last.batch] else []
  }

  /** The progress values reported, in order. */
  function Reports(log: seq<Effect>): seq<nat> {
    if |log| == 0 then []
    else
      var last := log[|log| - 1];
      Reports(log[..|log| - 1]) + if last.Progress? then [last.percent] else []
  }

  lemma {:induction false} LogAppend(a: seq<Effect>, b: seq<Effect>)
    ensures Saves(a + b) == Saves(a) + Saves(b)
    ensures Reports(a + b) == Reports(a) + Reports(b)
    decreases |b|
  {
    if |b| == 0 {
      assert a + b == a;
    } else {
      var n := |b| - 1;
      assert (a + b)[..|a + b| - 1] == a + b[..n];
      LogAppend(a, b[..n]);
    }
  }

  /** The effects of one chunk: an optional save followed by a progress report. */
  function ChunkEffects(flush: bool, buffer: seq<CdmEvent>, percent: nat): seq<Effect> {
    (if flush then [Save(buffer)] else []) + [Progress(percent)]
  }

  /**
   * The part of one loop iteration after the header: parse every line into
   * the buffer, write the buffer out if it reached a batch, report progress
   * capped at 99.
   */
  function ProcessLines(st: Importer, lines: seq<string>, percent: nat, rows: RowParsers): Importer {
    var buffer := st.buffer + Accepted(lines, rows(st.delimiter, st.headers), st.lineIndex);
    var flush := |buffer| >= BatchSize;
    st.(buffer := if flush then [] else buffer,
        lineIndex := st.lineIndex + |lines|,
        log := st.log + ChunkEffects(flush, buffer, Min(99, percent)),
        fed := st.fed + lines)
  }

  /** One iteration of the read loop. */
  function Step(st: Importer, chunk: Chunk, rows: RowParsers): Importer {
    var (lines, rest) := Reassemble(st.leftover, chunk.text);
    if st.isFirstChunk && (|lines| == 0 || lines[0] == "") then
      // `continue`: nothing is parsed, flushed or reported for this chunk
      st.(leftover := rest)
    else if st.isFirstChunk then
      var delimiter := SniffDelimiter(lines[0]);
      var st' := st.(leftover := rest, isFirstChunk := false,
                     headers := ParseHeaders(lines[0], delimiter), delimiter := delimiter);
      ProcessLines(st', lines[1..], chunk.percent, rows)
    else
      ProcessLines(st.(leftover := rest), lines, chunk.percent, rows)
  }

  /** The state after the read loop has consumed `chunks`. */
  function Feed(chunks: seq<Chunk>, rows: RowParsers): Importer {
    if |chunks| == 0 then Start
    else Step(Feed(chunks[..|chunks| - 1], rows), chunks[|chunks| - 1], rows)
  }

  /** The leftover line is parsed only when it is not blank, i.e. when `leftover.trim()` is non-empty. */
  function NonBlank(s: string): (r: seq<string>)
    ensures r == [s] || r == []
  {
    if IsBlank(s) then [] else [s]
  }

  /** After the loop: parse a non-blank leftover, flush a non-empty buffer, report 100. */
  function Finish(st: Importer, rows: RowParsers): Importer {
    var tail := NonBlank(st.leftover);
    var buffer := st.buffer + Accepted(tail, rows(st.delimiter, st.headers), st.lineIndex);
    st.(buffer := buffer,
        lineIndex := st.lineIndex + |tail|,
        log := st.log + ChunkEffects(|buffer| > 0, buffer, 100),
        fed := st.fed + tail)
  }

  /** The whole import of a file delivered as `chunks`. */
  function Import(chunks: seq<Chunk>, rows: RowParsers): Importer {
    Finish(Feed(chunks, rows), rows)
  }

  /** The buffer stays below a batch between chunks, and everything accepted so far is saved or buffered, in order. */
  ghost predicate Inv(st: Importer, rows: RowParsers) {
    && |st.buffer| < BatchSize
    && st.lineIndex == |st.fed|
    && Flatten(Saves(st.log)) + st.buffer == Accepted(st.fed, rows(st.delimiter, st.headers), 0)
    && (st.isFirstChunk ==> st.fed == [] && st.log == [] && st.buffer == [] && st.headers == [] && st.delimiter == ',')
    && LogOk(Saves(st.log), Reports(st.log))
  }

  /** Every save so far carried at least a batch, every report is at most 99, and no chunk saved twice. */
  predicate LogOk(saves: seq<seq<CdmEvent>>, reports: seq<nat>) {
    && (forall i :: 0 <= i < |saves| ==> |saves[i]| >= BatchSize)
    && (forall i :: 0 <= i < |reports| ==> reports[i] <= 99)
    && |saves| <= |reports|
  }

  lemma LogOkAfterChunk(saves: seq<seq<CdmEvent>>, reports: seq<nat>, flush: bool, buffer: seq<CdmEvent>, percent: nat)
    requires LogOk(saves, reports)
    requires flush ==> |buffer| >= BatchSize
    requires percent <= 99
    ensures LogOk(saves + (if flush then [buffer] else []), reports + [percent])
  {
  }

  lemma FlattenSnoc(ss: seq<seq<CdmEvent>>, b: seq<CdmEvent>)
    ensures Flatten(ss + [b]) == Flatten(ss) + b
  {
    assert (ss + [b])[..|ss|] == ss;
  }

  lemma LogAfterChunk(log: seq<Effect>, flush: bool, buffer: seq<CdmEvent>, percent: nat)
    ensures Saves(log + ChunkEffects(flush, buffer, percent)) == Saves(log) + (if flush then [buffer] else [])
    ensures Reports(log + ChunkEffects(flush, buffer, percent)) == Reports(log) + [percent]
  {
    var added := ChunkEffects(flush, buffer, percent);
    var l := log + added;
    assert l[..|l| - 1] == log + (if flush then [Save(buffer)] else []);
    if flush {
      var m := log + [Save(buffer)];
      assert m[..|m| - 1] == log;
    }
  }

  /** Saving the buffer once it reached a batch keeps "saved then buffered" equal to "accepted so far". */
  lemma BufferBookkeeping(saves: seq<seq<CdmEvent>>, held: seq<CdmEvent>, added: seq<CdmEvent>, accepted: seq<CdmEvent>, flush: bool)
    requires Flatten(saves) + held == accepted
    ensures var buffer := held + added;
            Flatten(saves + (if flush then [buffer] else [])) + (if flush then [] else buffer) == accepted + added
  {
    if flush {
      FlattenSnoc(saves, held + added);
    } else {
      assert saves + [] == saves;
    }
  }

  lemma ProcessLinesInv(st: Importer, lines: seq<string>, percent: nat, rows: RowParsers)
    requires !st.isFirstChunk
    requires Inv(st, rows)
    ensures var r := ProcessLines(st, lines, percent, rows);
            && Inv(r, rows)
            && |Reports(r.log)| == |Reports(st.log)| + 1
            && r.headers == st.headers && r.delimiter == st.delimiter && r.fed == st.fed + lines
  {
    var parse := rows(st.delimiter, st.headers);
    var parsed := Accepted(lines, parse, st.lineIndex);
    var buffer := st.buffer + parsed;
    var flush := |buffer| >= BatchSize;
    var r := ProcessLines(st, lines, percent, rows);
    LogAfterChunk(st.log, flush, buffer, Min(99, percent));
    LogOkAfterChunk(Saves(st.log), Reports(st.log), flush, buffer, Min(99, percent));
    AcceptedAppend(st.fed, lines, parse, 0);
    BufferBookkeeping(Saves(st.log), st.buffer, parsed, Accepted(st.fed, parse, 0), flush);
  }

  lemma StepInv(st: Importer, chunk: Chunk, rows: RowParsers)
    requires Inv(st, rows)
    ensures var r := Step(st, chunk, rows);
            && Inv(r, rows)
            && |Reports(r.log)| <= |Reports(st.log)| + 1
            && (!st.isFirstChunk ==> r.headers == st.headers && r.delimiter == st.delimiter)
  {
    var (lines, rest) := Reassemble(st.leftover, chunk.text);
    if st.isFirstChunk && (|lines| == 0 || lines[0] == "") {
    } else if st.isFirstChunk {
      var delimiter := SniffDelimiter(lines[0]);
      var st' := st.(leftover := rest, isFirstChunk := false,
                     headers := ParseHeaders(lines[0], delimiter), delimiter := delimiter);
      assert Inv(st', rows);
      ProcessLinesInv(st', lines[1..], chunk.percent, rows);
    } else {
      ProcessLinesInv(st.(leftover := rest), lines, chunk.percent, rows);
    }
  }

  /**
   * After every chunk the buffer holds fewer than a batch of events, every
   * accepted event so far is either saved or buffered, in order, every save
   * so far carried at least a batch, and at most one progress value (each at
   * most 99) was reported per chunk.
   */
  lemma {:induction false} FeedInv(chunks: seq<Chunk>, rows: RowParsers)
    ensures Inv(Feed(chunks, rows), rows)
    ensures |Reports(Feed(chunks, rows).log)| <= |chunks|
  {
    if |chunks| > 0 {
      FeedInv(chunks[..|chunks| - 1], rows);
      StepInv(Feed(chunks[..|chunks| - 1], rows), chunks[|chunks| - 1], rows);
    }
  }

  /**
   * The end of an import: every accepted event was saved exactly once, in
   * order; every save but the last carried at least a batch and none was
   * empty; there was at most one save per chunk plus the final flush; every
   * progress value before the last was at most 99, and the last effect is
   * the single report of 100, after the final save.
   */
  lemma ImportOutcome(chunks: seq<Chunk>, rows: RowParsers)
    ensures var r := Import(chunks, rows);
            var saves := Saves(r.log);
            var reports := Reports(r.log);
            && Flatten(saves) == Accepted(r.fed, rows(r.delimiter, r.headers), 0)
            && (forall i :: 0 <= i < |saves| - 1 ==> |saves[i]| >= BatchSize)
            && (forall i :: 0 <= i < |saves| ==> 0 < |saves[i]|)
            && |saves| <= |chunks| + 1
            && |reports| <= |chunks| + 1
            && reports[|reports| - 1] == 100
            && (forall i :: 0 <= i < |reports| - 1 ==> reports[i] <= 99)
            && r.log[|r.log| - 1] == Progress(100)
  {
    FeedInv(chunks, rows);
    FinishOutcome(Feed(chunks, rows), rows);
  }

  /** The end of an import, in terms of the state the read loop left. */
  lemma FinishOutcome(st: Importer, rows: RowParsers)
    requires Inv(st, rows)
    ensures var r := Finish(st, rows);
            var saves := Saves(r.log);
            var reports := Reports(r.log);
            && Flatten(saves) == Accepted(r.fed, rows(r.delimiter, r.headers), 0)
            && (forall i :: 0 <= i < |saves| - 1 ==> |saves[i]| >= BatchSize)
            && (forall i :: 0 <= i < |saves| ==> 0 < |saves[i]|)
            && |saves| <= |Reports(st.log)| + 1
            && reports == Reports(st.log) + [100]
            && r.log[|r.log| - 1] == Progress(100)
  {
    var buffer := Finish(st, rows).buffer;
    FinishLog(st, rows);
    FinalSaves(Saves(st.log), Reports(st.log), |buffer| > 0, buffer);
    FinishSavesAll(st, rows);
  }

  /** The final flush and the report of 100 are the last effects. */
  lemma FinishLog(st: Importer, rows: RowParsers)
    ensures var r := Finish(st, rows);
            && Saves(r.log) == Saves(st.log) + (if |r.buffer| > 0 then [r.buffer] else [])
            && Reports(r.log) == Reports(st.log) + [100]
            && r.log[|r.log| - 1] == Progress(100)
  {
    var buffer := Finish(st, rows).buffer;
    LogAfterChunk(st.log, |buffer| > 0, buffer, 100);
  }

  /** After the final flush, everything accepted has been saved. */
  lemma FinishSavesAll(st: Importer, rows: RowParsers)
    requires Inv(st, rows)
    ensures var r := Finish(st, rows);
            Flatten(Saves(st.log) + (if |r.buffer| > 0 then [r.buffer] else [])) == Accepted(r.fed, rows(r.delimiter, r.headers), 0)
  {
    var parse := rows(st.delimiter, st.headers);
    FlushTail(Saves(st.log), st.buffer, st.fed, NonBlank(st.leftover), parse);
  }

  /** Parsing the last lines into the buffer and flushing it saves everything accepted. */
  lemma FlushTail(saves: seq<seq<CdmEvent>>, held: seq<CdmEvent>, fed: seq<string>, tail: seq<string>, parse: LineParser)
    requires Flatten(saves) + held == Accepted(fed, parse, 0)
    ensures var buffer := held + Accepted(tail, parse, |fed|);
            Flatten(saves + (if |buffer| > 0 then [buffer] else [])) == Accepted(fed + tail, parse, 0)
  {
    var parsed := Accepted(tail, parse, |fed|);
    AcceptedAppend(fed, tail, parse, 0);
    BufferBookkeeping(saves, held, parsed, Accepted(fed, parse, 0), |held + parsed| > 0);
  }

  lemma FinalSaves(saves: seq<seq<CdmEvent>>, reports: seq<nat>, flush: bool, buffer: seq<CdmEvent>)
    requires LogOk(saves, reports)
    requires flush ==> |buffer| > 0
    ensures var all := saves + (if flush then [buffer] else []);
            && (forall i :: 0 <= i < |all| - 1 ==> |all[i]| >= BatchSize)
            && (forall i :: 0 <= i < |all| ==> 0 < |all[i]|)
            && |all| <= |reports| + 1
  {
  }

  /** Once the header row has been read, later chunks never change the headers or the delimiter. */
  lemma {:induction false} HeadersFixedOnce(a: seq<Chunk>, b: seq<Chunk>, rows: RowParsers)
    requires !Feed(a, rows).isFirstChunk
    ensures var st, r := Feed(a, rows), Feed(a + b, rows);
            !r.isFirstChunk && r.headers == st.headers && r.delimiter == st.delimiter
    decreases |b|
  {
    if |b| == 0 {
      assert a + b == a;
    } else {
      var n := |b| - 1;
      assert (a + b)[..|a + b| - 1] == a + b[..n];
      assert (a + b)[|a + b| - 1] == b[n];
      HeadersFixedOnce(a, b[..n], rows);
      FeedInv(a + b[..n], rows);
      StepInv(Feed(a + b[..n], rows), b[n], rows);
    }
  }

  /**
   * The `continue` for a missing or empty first line: the chunk's lines are
   * dropped, nothing is parsed, saved or reported, and the header is still
   * to be read. Only the carried text changes.
   */
  lemma EmptyFirstLineSkipsChunk(st: Importer, chunk: Chunk, rows: RowParsers)
    requires st.isFirstChunk
    requires var lines := Reassemble(st.leftover, chunk.text).0; |lines| == 0 || lines[0] == ""
    ensures var r := Step(st, chunk, rows);
            && r.isFirstChunk && r.fed == st.fed && r.log == st.log && r.buffer == st.buffer
            && Join(Reassemble(st.leftover, chunk.text).0 + [r.leftover], '\n') == st.leftover + chunk.text
  {
  }

  /** The `for (const line of lines)` loop: parse each line in turn and keep what the parser accepts. */
  method ParseLines(buffer: seq<CdmEvent>, lines: seq<string>, parse: LineParser, start: nat)
    returns (r: seq<CdmEvent>, next: nat)
    ensures r == buffer + Accepted(lines, parse, start)
    ensures next == start + |lines|
  {
    r, next := buffer, start;
    var j := 0;
    while j < |lines|
      invariant 0 <= j <= |lines|
      invariant next == start + j
      invariant r == buffer + Accepted(lines[..j], parse, start)
    {
      var evt := parse(lines[j], next);
      if evt.Some? {
        r := r + [evt.value];
      }
      assert lines[..j + 1][..j] == lines[..j];
      next := next + 1;
      j := j + 1;
    }
    assert lines[..j] == lines;
  }

  /** One pass of the `while (true)` loop body for a chunk that was read. */
  method ReadChunk(st: Importer, chunk: Chunk, rows: RowParsers) returns (r: Importer)
    ensures r == Step(st, chunk, rows)
  {
    var split := Reassemble(st.leftover, chunk.text);
    var lines := split.0;
    r := st.(leftover := split.1);
    if r.isFirstChunk {
      if |lines| == 0 || lines[0] == "" {
        return;
      }
      var delimiter := SniffDelimiter(lines[0]);
      r := r.(isFirstChunk := false, headers := ParseHeaders(lines[0], delimiter), delimiter := delimiter);
      lines := lines[1..];
    }
    var buffer, next := ParseLines(r.buffer, lines, rows(r.delimiter, r.headers), r.lineIndex);
    var log := r.log;
    if |buffer| >= BatchSize {
      log := log + [Save(buffer)];
      buffer := [];
    }
    log := log + [Progress(Min(99, chunk.percent))];
    r := r.(buffer := buffer, lineIndex := next, log := log, fed := r.fed + lines);
  }

  /**
   * `parseAndImportCdmFile` as a loop over the chunks followed by the
   * leftover line, the final flush and the report of 100. It computes the
   * fold `Import`, and so every accepted line ends up in exactly one save,
   * in order, and the last thing it does is report 100.
   */
  method ParseAndImportCdmFile(chunks: seq<Chunk>, rows: RowParsers) returns (r: Importer)
    ensures r == Import(chunks, rows)
    ensures Flatten(Saves(r.log)) == Accepted(r.fed, rows(r.delimiter, r.headers), 0)
    ensures |r.log| > 0 && r.log[|r.log| - 1] == Progress(100)
  {
    r := Start;
    var k := 0;
    while k < |chunks|
      invariant 0 <= k <= |chunks|
      invariant r == Feed(chunks[..k], rows)
    {
      r := ReadChunk(r, chunks[k], rows);
      assert chunks[..k + 1][..k] == chunks[..k];
      k := k + 1;
    }
    assert chunks[..k] == chunks;
    r := FinishImport(r, rows);
    ImportOutcome(chunks, rows);
  }

  /** After the loop: the leftover line, the final flush and the report of 100. */
  method FinishImport(st: Importer, rows: RowParsers) returns (r: Importer)
    ensures r == Finish(st, rows)
  {
    var tail := NonBlank(st.leftover);
    var buffer, next := ParseLines(st.buffer, tail, rows(st.delimiter, st.headers), st.lineIndex);
    var log := st.log;
    if |buffer| > 0 {
      log := log + [Save(buffer)];
    }
    log := log + [Progress(100)];
    FinishState(st, rows, buffer, next, log);
    r := st.(buffer := buffer, lineIndex := next, log := log, fed := st.fed + tail);
  }

  lemma FinishState(st: Importer, rows: RowParsers, buffer: seq<CdmEvent>, next: nat, log: seq<Effect>)
    requires buffer == st.buffer + Accepted(NonBlank(st.leftover), rows(st.delimiter, st.headers), st.lineIndex)
    requires next == st.lineIndex + |NonBlank(st.leftover)|
    requires log == st.log + (if |buffer| > 0 then [Save(buffer)] else []) + [Progress(100)]
    ensures Finish(st, rows) == st.(buffer := buffer, lineIndex := next, log := log, fed := st.fed + NonBlank(st.leftover))
  {
  }

  /** The byte counts behind the chunk percentages only grow. */
  predicate PercentsNonDecreasing(chunks: seq<Chunk>) {
    forall i, j :: 0 <= i < j < |chunks| ==> chunks[i].percent <= chunks[j].percent
  }

  predicate Sorted(s: seq<nat>) {
    forall i, j :: 0 <= i < j < |s| ==> s[i] <= s[j]
  }

  lemma ExtendSorted(s: seq<nat>, t: seq<nat>, bound: nat, x: nat)
    requires Sorted(s) && bound <= x
    requires forall k :: 0 <= k < |s| ==> s[k] <= bound
    requires t == s || t == s + [x]
    ensures Sorted(t)
    ensures forall k :: 0 <= k < |t| ==> t[k] <= x
  {
  }

  /** A chunk reports nothing (the `continue`) or its own percentage capped at 99. */
  lemma StepReports(st: Importer, chunk: Chunk, rows: RowParsers)
    ensures var added := Reports(Step(st, chunk, rows).log);
            added == Reports(st.log) || added == Reports(st.log) + [Min(99, chunk.percent)]
  {
    var (lines, rest) := Reassemble(st.leftover, chunk.text);
    if !(st.isFirstChunk && (|lines| == 0 || lines[0] == "")) {
      var st' := if st.isFirstChunk
        then st.(leftover := rest, isFirstChunk := false,
                 headers := ParseHeaders(lines[0], SniffDelimiter(lines[0])), delimiter := SniffDelimiter(lines[0]))
        else st.(leftover := rest);
      var ls := if st.isFirstChunk then lines[1..] else lines;
      var buffer := st'.buffer + Accepted(ls, rows(st'.delimiter, st'.headers), st'.lineIndex);
      LogAfterChunk(st.log, |buffer| >= BatchSize, buffer, Min(99, chunk.percent));
    }
  }

  /**
   * With growing chunk percentages, the values reported during the loop
   * never decrease, and none exceeds the last chunk's percentage.
   */
  lemma {:induction false} FeedReportsSorted(chunks: seq<Chunk>, rows: RowParsers)
    requires PercentsNonDecreasing(chunks)
    ensures var reports := Reports(Feed(chunks, rows).log);
            && Sorted(reports)
            && (|chunks| == 0 ==> reports == [])
            && (|chunks| > 0 ==> forall k :: 0 <= k < |reports| ==> reports[k] <= Min(99, chunks[|chunks| - 1].percent))
  {
    if |chunks| > 0 {
      var init, last := chunks[..|chunks| - 1], chunks[|chunks| - 1];
      FeedReportsSorted(init, rows);
      StepReports(Feed(init, rows), last, rows);
      var bound := if |init| > 0 then Min(99, init[|init| - 1].percent) else 0;
      ExtendSorted(Reports(Feed(init, rows).log), Reports(Feed(chunks, rows).log), bound, Min(99, last.percent));
    }
  }

  lemma FinishKeepsSorted(st: Importer, rows: RowParsers)
    requires Sorted(Reports(st.log))
    requires forall k :: 0 <= k < |Reports(st.log)| ==> Reports(st.log)[k] <= 99
    ensures Sorted(Reports(Finish(st, rows).log))
  {
    FinishReports(st, rows);
    ExtendSorted(Reports(st.log), Reports(Finish(st, rows).log), 99, 100);
  }

  lemma FinishReports(st: Importer, rows: RowParsers)
    ensures Reports(Finish(st, rows).log) == Reports(st.log) + [100]
  {
    var buffer := st.buffer + Accepted(NonBlank(st.leftover), rows(st.delimiter, st.headers), st.lineIndex);
    LogAfterChunk(st.log, |buffer| > 0, buffer, 100);
  }

  /**
   * With growing chunk percentages, the reported progress never decreases,
   * from the first report to the final 100.
   */
  lemma ImportReportsSorted(chunks: seq<Chunk>, rows: RowParsers)
    requires PercentsNonDecreasing(chunks)
    ensures Sorted(Reports(Import(chunks, rows).log))
  {
    FeedReportsSorted(chunks, rows);
    FinishKeepsSorted(Feed(chunks, rows), rows);
  }
}
