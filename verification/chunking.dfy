/**
 * Chunk independence of the import. Whatever way the file's text is cut
 * into chunks, the importer hands the row parser the same lines under the
 * same header row and delimiter, provided the first line of the file is not
 * empty; so the events accepted, and the store after all saves, do not
 * depend on the chunking. Only the batching and the progress reports do.
 */
module Chunking {
  import opened Wrappers
  import opened Text
  import opened Seqs
  import opened Types
  import opened EventStore
  import opened Ingestion

  /** The text of the file: the chunks one after the other. */
  function Concat(chunks: seq<Chunk>): string {
    if |chunks| == 0 then ""
    else Concat(chunks[..|chunks| - 1]) + chunks[|chunks| - 1].text
  }

  /** The file's first line is non-empty, or the file has a single line. */
  predicate FirstLineOk(text: string) {
    var lines := Split(text, '\n');
    |lines| > 1 ==> lines[0] != ""
  }

  /**
   * The lines a reader of the whole text would hand to the row parser: all
   * lines after the header, the last one only when it is not blank. A text
   * without a line break has no header row and is itself the only line.
   */
  function ReferenceFed(text: string): seq<string> {
    var lines := Split(text, '\n');
    if |lines| == 1 then NonBlank(lines[0])
    else lines[1..|lines| - 1] + NonBlank(lines[|lines| - 1])
  }

  /** The delimiter a reader of the whole text would sniff from its first line. */
  function ReferenceDelimiter(text: string): char {
    var lines := Split(text, '\n');
    if |lines| == 1 then ',' else SniffDelimiter(lines[0])
  }

  /** The header row a reader of the whole text would use. */
  function ReferenceHeaders(text: string): seq<string> {
    var lines := Split(text, '\n');
    if |lines| == 1 then [] else ParseHeaders(lines[0], SniffDelimiter(lines[0]))
  }

  /** The importer state after reading a prefix of the file, in terms of that prefix's lines. */
  ghost predicate Tracks(st: Importer, prefix: string) {
    var lines := Split(prefix, '\n');
    && st.leftover == lines[|lines| - 1]
    && (|lines| == 1 ==> st.isFirstChunk && st.fed == [] && st.headers == [] && st.delimiter == ',')
    && (|lines| > 1 ==>
          && !st.isFirstChunk
          && st.delimiter == SniffDelimiter(lines[0])
          && st.headers == ParseHeaders(lines[0], st.delimiter)
          && st.fed == lines[1..|lines| - 1])
  }

  lemma {:induction false} SplitWithoutSeparator(s: string, c: char)
    requires c !in s
    ensures Split(s, c) == [s]
  {
    if |s| > 0 {
      SplitWithoutSeparator(s[1..], c);
      assert [s[0]] + s[1..] == s;
    }
  }

  /** A prefix of a text whose first line is fine has a fine first line too. */
  lemma FirstLineOkPrefix(a: string, b: string)
    requires FirstLineOk(a + b)
    ensures FirstLineOk(a)
  {
    if |Split(a, '\n')| > 1 {
      if '\n' !in a {
        SplitWithoutSeparator(a, '\n');
      }
      SplitAppend(a, b, '\n');
      FirstPieceStable(a, b, '\n');
    }
  }

  lemma StepTracksFirst(st: Importer, prefix: string, chunk: Chunk, rows: RowParsers)
    requires Tracks(st, prefix) && |Split(prefix, '\n')| == 1
    requires FirstLineOk(prefix + chunk.text)
    requires Split(prefix + chunk.text, '\n') == Split(st.leftover + chunk.text, '\n')
    ensures Tracks(Step(st, chunk, rows), prefix + chunk.text)
  {
  }

  /** After the header row, a chunk's complete lines are all parsed and its last piece is carried. */
  lemma StepAfterHeader(st: Importer, chunk: Chunk, rows: RowParsers)
    requires !st.isFirstChunk
    ensures var r, pieces := Step(st, chunk, rows), Split(st.leftover + chunk.text, '\n');
            && !r.isFirstChunk && r.headers == st.headers && r.delimiter == st.delimiter
            && r.fed == st.fed + pieces[..|pieces| - 1]
            && r.leftover == pieces[|pieces| - 1]
  {
    var pieces := Split(st.leftover + chunk.text, '\n');
    var split := Reassemble(st.leftover, chunk.text);
    assert split.0 == pieces[..|pieces| - 1];
  }

  lemma LaterLines(lines: seq<string>, more: seq<string>, all: seq<string>)
    requires |lines| > 1 && |more| >= 1
    requires all == lines[..|lines| - 1] + more
    ensures |all| > 1 && all[0] == lines[0] && all[|all| - 1] == more[|more| - 1]
    ensures all[1..|all| - 1] == lines[1..|lines| - 1] + more[..|more| - 1]
  {
  }

  lemma StepTracksLater(st: Importer, prefix: string, chunk: Chunk, rows: RowParsers)
    requires Tracks(st, prefix) && |Split(prefix, '\n')| > 1
    requires var lines := Split(prefix, '\n');
             Split(prefix + chunk.text, '\n') == lines[..|lines| - 1] + Split(st.leftover + chunk.text, '\n')
    ensures Tracks(Step(st, chunk, rows), prefix + chunk.text)
  {
    StepAfterHeader(st, chunk, rows);
    LaterLines(Split(prefix, '\n'), Split(st.leftover + chunk.text, '\n'), Split(prefix + chunk.text, '\n'));
  }

  /** Reading one more chunk keeps the state in step with the text read so far. */
  lemma StepTracks(st: Importer, prefix: string, chunk: Chunk, rows: RowParsers)
    requires Tracks(st, prefix)
    requires FirstLineOk(prefix + chunk.text)
    ensures Tracks(Step(st, chunk, rows), prefix + chunk.text)
  {
    SplitAppend(prefix, chunk.text, '\n');
    if |Split(prefix, '\n')| == 1 {
      StepTracksFirst(st, prefix, chunk, rows);
    } else {
      StepTracksLater(st, prefix, chunk, rows);
    }
  }

  lemma {:induction false} FeedTracks(chunks: seq<Chunk>, rows: RowParsers)
    requires FirstLineOk(Concat(chunks))
    ensures Tracks(Feed(chunks, rows), Concat(chunks))
  {
    if |chunks| > 0 {
      var init := chunks[..|chunks| - 1];
      FirstLineOkPrefix(Concat(init), chunks[|chunks| - 1].text);
      FeedTracks(init, rows);
      StepTracks(Feed(init, rows), Concat(init), chunks[|chunks| - 1], rows);
    }
  }

  /**
   * The lines parsed, the header row and the delimiter of an import are
   * those of the whole text, however it was cut into chunks.
   */
  lemma ImportReadsWholeText(chunks: seq<Chunk>, rows: RowParsers)
    requires FirstLineOk(Concat(chunks))
    ensures var r := Import(chunks, rows);
            var text := Concat(chunks);
            && r.fed == ReferenceFed(text)
            && r.delimiter == ReferenceDelimiter(text)
            && r.headers == ReferenceHeaders(text)
  {
    FeedTracks(chunks, rows);
    FinishTracks(Feed(chunks, rows), Concat(chunks), rows);
  }

  /** The end of the import parses the last line of the text when it is not blank. */
  lemma FinishTracks(st: Importer, text: string, rows: RowParsers)
    requires Tracks(st, text)
    ensures var r := Finish(st, rows);
            && r.fed == ReferenceFed(text)
            && r.delimiter == ReferenceDelimiter(text)
            && r.headers == ReferenceHeaders(text)
  {
  }

  /**
   * Two chunkings of the same text with a non-empty first line save the
   * same events in the same order, and leave the store in the same state.
   */
  lemma ChunkingIndependent(a: seq<Chunk>, b: seq<Chunk>, rows: RowParsers, store: Store)
    requires Concat(a) == Concat(b)
    requires FirstLineOk(Concat(a))
    ensures Flatten(Saves(Import(a, rows).log)) == Flatten(Saves(Import(b, rows).log))
    ensures BulkPutAll(store, Saves(Import(a, rows).log)) == BulkPutAll(store, Saves(Import(b, rows).log))
  {
    ImportReadsWholeText(a, rows);
    ImportReadsWholeText(b, rows);
    ImportOutcome(a, rows);
    ImportOutcome(b, rows);
    BulkPutAllFlatten(store, Saves(Import(a, rows).log));
    BulkPutAllFlatten(store, Saves(Import(b, rows).log));
  }

  lemma SplitTwoLines(h: string, row: string)
    requires '\n' !in h && '\n' !in row
    ensures Split(h + "\n" + row + "\n", '\n') == [h, row, ""]
    ensures Split("\n" + h + "\n" + row + "\n", '\n') == ["", h, row, ""]
    ensures Split("\n", '\n') == ["", ""]
  {
    SplitHeaderAndRow(h, row);
    SplitAfterPiece("", h + "\n" + row + "\n", '\n');
    assert "" + ['\n'] + (h + "\n" + row + "\n") == "\n" + h + "\n" + row + "\n";
    SplitAfterPiece("", "", '\n');
    assert "" + ['\n'] + "" == "\n";
  }

  lemma SplitHeaderAndRow(h: string, row: string)
    requires '\n' !in h && '\n' !in row
    ensures Split(h + "\n" + row + "\n", '\n') == [h, row, ""]
  {
    SplitAfterPiece(row, "", '\n');
    assert row + ['\n'] + "" == row + "\n";
    SplitAfterPiece(h, row + "\n", '\n');
    assert h + ['\n'] + (row + "\n") == h + "\n" + row + "\n";
  }

  lemma OneChunkWithEmptyFirstLine(h: string, row: string, rows: RowParsers)
    requires '\n' !in h && '\n' !in row
    ensures Import([Chunk("\n" + h + "\n" + row + "\n", 100)], rows).fed == []
  {
    var one := [Chunk("\n" + h + "\n" + row + "\n", 100)];
    SplitTwoLines(h, row);
    assert "" + one[0].text == one[0].text;
    assert one[..0] == [];
    assert Reassemble("", one[0].text).1 == "";
    assert Feed(one, rows).fed == [] && Feed(one, rows).leftover == "";
    assert IsBlank("");
  }

  lemma TwoChunksAfterEmptyFirstLine(h: string, row: string, rows: RowParsers)
    requires '\n' !in h && '\n' !in row && h != ""
    ensures Import([Chunk("\n", 50), Chunk(h + "\n" + row + "\n", 100)], rows).fed == [row]
  {
    var two := [Chunk("\n", 50), Chunk(h + "\n" + row + "\n", 100)];
    SplitTwoLines(h, row);
    assert "" + two[0].text == two[0].text;
    assert "" + two[1].text == two[1].text;
    assert two[..1][..0] == [];
    assert Reassemble("", "\n") == ([""], "");
    assert Feed(two[..1], rows) == Step(Start, two[0], rows);
    assert Feed(two[..1], rows) == Start;
    var split := Reassemble("", two[1].text);
    assert split.0 + [split.1] == [h, row, ""];
    assert split.0 == (split.0 + [split.1])[..2] == [h, row];
    assert Feed(two, rows).fed == [row] && Feed(two, rows).leftover == "";
    assert IsBlank("");
  }

  lemma SameText(h: string, row: string)
    ensures Concat([Chunk("\n" + h + "\n" + row + "\n", 100)])
         == Concat([Chunk("\n", 50), Chunk(h + "\n" + row + "\n", 100)])
  {
    var one := [Chunk("\n" + h + "\n" + row + "\n", 100)];
    var two := [Chunk("\n", 50), Chunk(h + "\n" + row + "\n", 100)];
    assert one[..0] == two[..1][..0] == [];
    assert two[..1] == [two[0]];
    assert Concat(two[..1]) == "" + "\n" == "\n";
    assert Concat(one) == "" + one[0].text;
  }

  /**
   * Without a non-empty first line the result does depend on the chunking:
   * a file whose first line is empty, read as one chunk, parses nothing
   * (the `continue` drops every line of that chunk), while the same text
   * cut right after the empty line takes the next line as the header row
   * and parses the row below it.
   */
  lemma EmptyFirstLineDependsOnChunking(h: string, row: string, rows: RowParsers)
    requires '\n' !in h && '\n' !in row && h != ""
    ensures var one := [Chunk("\n" + h + "\n" + row + "\n", 100)];
            var two := [Chunk("\n", 50), Chunk(h + "\n" + row + "\n", 100)];
            && Concat(one) == Concat(two)
            && Import(one, rows).fed == []
            && Import(two, rows).fed == [row]
  {
    SameText(h, row);
    OneChunkWithEmptyFirstLine(h, row, rows);
    TwoChunksAfterEmptyFirstLine(h, row, rows);
  }
}
