/**
 * The import with the real row parser plugged in: what the generic
 * ingestion results say once every line goes through `parseCsvLine`.
 */
module CsvImport {
  import opened Wrappers
  import opened Text
  import opened Seqs
  import opened Types
  import opened Policy
  import opened CsvRow
  import opened Ingestion
  import opened Chunking

  /** Every event a parser accepts satisfies `good`, if every event it can return does. */
  lemma {:induction false} AcceptedAllGood(lines: seq<string>, parse: LineParser, start: nat, good: CdmEvent -> bool)
    requires forall line, i :: parse(line, i).Some? ==> good(parse(line, i).value)
    ensures forall k :: 0 <= k < |Accepted(lines, parse, start)| ==> good(Accepted(lines, parse, start)[k])
    decreases |lines|
  {
    if |lines| > 0 {
      AcceptedAllGood(lines[..|lines| - 1], parse, start, good);
    }
  }

  /**
   * Every event the import saves has been through the lane classifier: its
   * gates and lane are what `applyPolicy` gives for the import's policy and
   * the event's own time to closest approach.
   */
  lemma ImportedEventsClassified(chunks: seq<Chunk>, policy: PolicyConfig, env: Environment)
    ensures var saved := Flatten(Saves(Import(chunks, CsvRows(policy, env)).log));
            forall k :: 0 <= k < |saved| ==> Classified(saved[k], policy, env.hoursToTca(saved[k].tca))
  {
    var rows := CsvRows(policy, env);
    var r := Import(chunks, rows);
    ImportOutcome(chunks, rows);
    var good := (e: CdmEvent) => Classified(e, policy, env.hoursToTca(e.tca));
    AcceptedAllGood(r.fed, rows(r.delimiter, r.headers), 0, good);
  }

  /**
   * A file without a line break has no header row: its one line is parsed
   * as data against an empty header list, which every non-blank line
   * satisfies, so a file holding only a header line imports one event.
   */
  lemma SingleLineFileIsOneRow(chunks: seq<Chunk>, policy: PolicyConfig, env: Environment)
    requires '\n' !in Concat(chunks)
    requires !IsBlank(Concat(chunks))
    ensures var r := Import(chunks, CsvRows(policy, env));
            && r.headers == []
            && r.fed == [Concat(chunks)]
            && |Flatten(Saves(r.log))| == 1
  {
    var rows := CsvRows(policy, env);
    SplitWithoutSeparator(Concat(chunks), '\n');
    ImportReadsWholeText(chunks, rows);
    ImportOutcome(chunks, rows);
    var r := Import(chunks, rows);
    NonBlankLineParsesWithoutHeaders(Concat(chunks), r.delimiter, policy, env);
    OneAcceptedLine(Concat(chunks), rows(r.delimiter, r.headers));
  }

  /** With no headers, the row parser accepts every non-blank line. */
  lemma NonBlankLineParsesWithoutHeaders(line: string, delimiter: char, policy: PolicyConfig, env: Environment)
    requires !IsBlank(line)
    ensures CsvRows(policy, env)(delimiter, [])(line, 0).Some?
  {
    assert MinFields([]) == 0;
    var r := ParseCsvLine(line, delimiter, [], policy, 0, env);
    assert r.Some?;
    assert CsvRows(policy, env)(delimiter, [])(line, 0) == r;
  }

  /** A single line the parser accepts yields exactly one event. */
  lemma OneAcceptedLine(line: string, parse: LineParser)
    requires parse(line, 0).Some?
    ensures |Accepted([line], parse, 0)| == 1
  {
    assert Accepted([line], parse, 0) == Accepted([], parse, 0) + [parse(line, 0).value];
  }
}
