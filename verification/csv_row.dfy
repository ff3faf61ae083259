/**
 * `parseCsvLine`: one line of delimited text to one triaged event. The split
 * is naive (no quoting). Fields are looked up through the header row by
 * substring; missing or unparseable values fall back to fixed defaults.
 */
module CsvRow {
  import opened Numbers
  import opened Wrappers
  import opened Text
  import opened Types
  import opened Policy

  /** The values the source draws at random (or from the clock) for each imported row. */
  datatype Placeholders = Placeholders(
    generatedId: string,
    hbr: Num,
    etaValue: Num,
    tangencyValue: Num,
    conditioningValue: Num,
    relativePosition: Vector3,
    relativeVelocity: Vector3)

  /**
   * Everything outside the pure logic: the current time as an ISO string,
   * the hours from now to a TCA, `parseFloat`, `Date.parse` followed by
   * `toISOString` (None when the date does not parse), and the placeholders
   * of the row with a given line index.
   */
  datatype Environment = Environment(
    nowIso: string,
    hoursToTca: string -> Num,
    parseFloat: string -> Num,
    parseDate: string -> Option<string>,
    placeholders: nat -> Placeholders)

  const DefaultMissDistance: real := 1000.0
  const DefaultRelativeSpeed: real := 7500.0
  const DefaultPc: real := 0.0
  const FixedCovariance := Vector3(Fin(50.0), Fin(500.0), Fin(50.0))

  /** `parseFloat` reads the source's own fallback literals as the numbers they spell. */
  predicate ParsesFallbacks(env: Environment) {
    && env.parseFloat("1000") == Fin(DefaultMissDistance)
    && env.parseFloat("7500") == Fin(DefaultRelativeSpeed)
    && env.parseFloat("0") == Fin(DefaultPc)
  }

  /** Index of the first header at or after `from` that contains `key`. */
  function FindHeaderFrom(headers: seq<string>, key: string, from: nat): (r: Option<nat>)
    requires from <= |headers|
    ensures r.Some? ==> from <= r.value < |headers| && Contains(headers[r.value], key)
    ensures r.Some? ==> forall j :: from <= j < r.value ==> !Contains(headers[j], key)
    ensures r.None? ==> forall j :: from <= j < |headers| ==> !Contains(headers[j], key)
    decreases |headers| - from
  {
    if from == |headers| then None
    else if Contains(headers[from], key) then Some(from)
    else FindHeaderFrom(headers, key, from + 1)
  }

  /** `headers.findIndex(h => h.includes(key))` */
  function FindHeader(headers: seq<string>, key: string): (r: Option<nat>)
    ensures r.Some? ==> r.value < |headers| && Contains(headers[r.value], key)
    ensures r.Some? ==> forall j :: 0 <= j < r.value ==> !Contains(headers[j], key)
    ensures r.None? ==> forall j :: 0 <= j < |headers| ==> !Contains(headers[j], key)
  {
    FindHeaderFrom(headers, key, 0)
  }

  /** `getVal(key)`: the value under the first matching header; None if there is none or the row is too short. */
  function GetVal(values: seq<string>, headers: seq<string>, key: string): Option<string> {
    match FindHeader(headers, key)
    case None => None
    case Some(i) => if i < |values| then Some(values[i]) else None
  }

  /** JavaScript `v || fallback` on a possibly missing string: the empty string counts as missing. */
  function Or(v: Option<string>, fallback: string): string {
    if v.Some? && v.value != "" then v.value else fallback
  }

  /** `parseFloat(raw || fallbackText)`, with NaN replaced by `default`. */
  function NumberField(raw: Option<string>, fallbackText: string, default: real, parseFloat: string -> Num): (n: Num)
    ensures n.Fin?
    ensures raw.Some? && raw.value != "" && parseFloat(raw.value).Fin? ==> n == parseFloat(raw.value)
    ensures raw.Some? && raw.value != "" && parseFloat(raw.value).NaN? ==> n == Fin(default)
    ensures (raw.None? || raw.value == "") && parseFloat(fallbackText).Fin? ==> n == parseFloat(fallbackText)
    ensures (raw.None? || raw.value == "") && parseFloat(fallbackText).NaN? ==> n == Fin(default)
  {
    var x := parseFloat(Or(raw, fallbackText));
    if x.NaN? then Fin(default) else x
  }

  /**
   * The TCA normalisation: a missing TCA becomes now; one containing `T` is
   * kept verbatim; otherwise a date that parses is re-emitted in ISO form and
   * one that does not is kept as it was.
   */
  function NormalizeTca(raw: Option<string>, nowIso: string, parseDate: string -> Option<string>): (tca: string)
    ensures raw.None? || raw.value == "" ==> tca == nowIso
    ensures raw.Some? && 'T' in raw.value ==> tca == raw.value
    ensures raw.Some? && raw.value != "" && 'T' !in raw.value && parseDate(raw.value).Some?
            ==> tca == parseDate(raw.value).value
    ensures raw.Some? && raw.value != "" && 'T' !in raw.value && parseDate(raw.value).None?
            ==> tca == raw.value
  {
    var tca := Or(raw, nowIso);
    if raw.Some? && raw.value != "" && 'T' !in raw.value then
      match parseDate(raw.value)
      case Some(iso) => iso
      case None => tca
    else tca
  }

  /** `s.split(delimiter).map(v => v.trim())` */
  function SplitTrimmed(s: string, delimiter: char): (r: seq<string>)
    ensures |r| == |Split(s, delimiter)|
    ensures forall i :: 0 <= i < |r| ==> r[i] == Trim(Split(s, delimiter)[i])
  {
    var parts := Split(s, delimiter);
    seq(|parts|, i requires 0 <= i < |parts| => Trim(parts[i]))
  }

  /** The event a well-formed row describes, before classification. */
  function RawEvent(values: seq<string>, headers: seq<string>, index: nat, env: Environment): CdmEvent {
    var ph := env.placeholders(index);
    var speedText := Or(GetVal(values, headers, "velocity"), "7500");
    var pcText := Or(GetVal(values, headers, "pc"), "0");
    CdmEvent(
      Or(GetVal(values, headers, "id"), ph.generatedId),
      Or(GetVal(values, headers, "object1"), "UNKNOWN_1"),
      Or(GetVal(values, headers, "object2"), "UNKNOWN_2"),
      NormalizeTca(GetVal(values, headers, "tca"), env.nowIso, env.parseDate),
      env.nowIso,
      NumberField(GetVal(values, headers, "miss"), "1000", DefaultMissDistance, env.parseFloat),
      NumberField(GetVal(values, headers, "speed"), speedText, DefaultRelativeSpeed, env.parseFloat),
      NumberField(GetVal(values, headers, "prob"), pcText, DefaultPc, env.parseFloat),
      None,
      ph.hbr,
      Gates(GateResult(ph.etaValue, true, ""), GateResult(ph.tangencyValue, true, ""),
            GateResult(ph.conditioningValue, true, "")),
      AnalyticOk,
      ph.relativePosition,
      ph.relativeVelocity,
      FixedCovariance)
  }

  /** The number of fields a row needs: three, or fewer when there are fewer headers. */
  function MinFields(headers: seq<string>): nat {
    Min(3, |headers|)
  }

  /**
   * `parseCsvLine(line, delimiter, headers, policy, index)`: None for a blank
   * line or one with too few fields; otherwise the row's event, classified
   * under `policy`.
   */
  function ParseCsvLine(line: string, delimiter: char, headers: seq<string>, policy: PolicyConfig,
                        index: nat, env: Environment): (r: Option<CdmEvent>)
    ensures r.None? <==> IsBlank(line) || |Split(line, delimiter)| < MinFields(headers)
    ensures r.Some? ==> Classified(r.value, policy, env.hoursToTca(r.value.tca))
    ensures r.Some? ==> && r.value.pcMc.None?
                        && r.value.missDistance.Fin? && r.value.relativeSpeed.Fin? && r.value.pcAnalytic.Fin?
                        && r.value.creationDate == env.nowIso
                        && r.value.covarianceDiagonal == FixedCovariance
    ensures r.Some? ==> var ph := env.placeholders(index);
                        && r.value.hbr == ph.hbr
                        && r.value.gates.eta.value == ph.etaValue && r.value.gates.eta.reason == ""
                        && r.value.gates.tangency.value == ph.tangencyValue && r.value.gates.tangency.reason == ""
                        && r.value.gates.conditioning.value == ph.conditioningValue
                        && r.value.gates.conditioning.reason == ""
                        && r.value.relativePosition == ph.relativePosition
                        && r.value.relativeVelocity == ph.relativeVelocity
  {
    if Trim(line) == "" then None
    else
      var values := SplitTrimmed(line, delimiter);
      if |values| < MinFields(headers) then None
      else
        var raw := RawEvent(values, headers, index, env);
        Some(ApplyPolicy(raw, policy, env.hoursToTca(raw.tca)))
  }

  /** A looked-up value that JavaScript treats as missing: no value, or the empty string. */
  predicate Absent(v: Option<string>) {
    v.None? || v.value == ""
  }

  /** The value of a field is taken from the column of the first header containing the key. */
  lemma FirstMatchingHeaderWins(values: seq<string>, headers: seq<string>, key: string, i: nat)
    requires i < |headers| && Contains(headers[i], key)
    requires forall j :: 0 <= j < i ==> !Contains(headers[j], key)
    ensures GetVal(values, headers, key) == (if i < |values| then Some(values[i]) else None)
  {
  }

  /** With no header containing the key, the field is missing. */
  lemma NoMatchingHeaderIsAbsent(values: seq<string>, headers: seq<string>, key: string)
    requires forall j :: 0 <= j < |headers| ==> !Contains(headers[j], key)
    ensures GetVal(values, headers, key) == None
  {
  }

  /**
   * The fallbacks of an imported row: missing identifiers are replaced by the
   * generated id and UNKNOWN_1 / UNKNOWN_2, a missing TCA by now, and missing
   * or unparseable numbers by 1000 / 7500 / 0; speed is looked for under
   * `speed` and then `velocity`, probability under `prob` and then `pc`.
   */
  lemma ImportedRowFields(line: string, delimiter: char, headers: seq<string>, policy: PolicyConfig,
                          index: nat, env: Environment)
    requires ParsesFallbacks(env)
    requires ParseCsvLine(line, delimiter, headers, policy, index, env).Some?
    ensures var values := SplitTrimmed(line, delimiter);
            var e := ParseCsvLine(line, delimiter, headers, policy, index, env).value;
            var field := (key: string) => GetVal(values, headers, key);
            var parse := env.parseFloat;
            && (Absent(field("id")) ==> e.id == env.placeholders(index).generatedId)
            && (!Absent(field("id")) ==> e.id == field("id").value)
            && (Absent(field("object1")) ==> e.object1 == "UNKNOWN_1")
            && (!Absent(field("object1")) ==> e.object1 == field("object1").value)
            && (Absent(field("object2")) ==> e.object2 == "UNKNOWN_2")
            && (!Absent(field("object2")) ==> e.object2 == field("object2").value)
            && (Absent(field("tca")) ==> e.tca == env.nowIso)
            && (!Absent(field("tca")) ==> e.tca == NormalizeTca(field("tca"), env.nowIso, env.parseDate))
            && (Absent(field("miss")) ==> e.missDistance == Fin(DefaultMissDistance))
            && (!Absent(field("miss")) && parse(field("miss").value).NaN? ==> e.missDistance == Fin(DefaultMissDistance))
            && (!Absent(field("miss")) && parse(field("miss").value).Fin? ==> e.missDistance == parse(field("miss").value))
            && (Absent(field("speed")) && Absent(field("velocity")) ==> e.relativeSpeed == Fin(DefaultRelativeSpeed))
            && (!Absent(field("speed")) && parse(field("speed").value).Fin? ==> e.relativeSpeed == parse(field("speed").value))
            && (!Absent(field("speed")) && parse(field("speed").value).NaN? ==> e.relativeSpeed == Fin(DefaultRelativeSpeed))
            && (Absent(field("speed")) && !Absent(field("velocity")) && parse(field("velocity").value).NaN?
                ==> e.relativeSpeed == Fin(DefaultRelativeSpeed))
            && (Absent(field("speed")) && !Absent(field("velocity")) && parse(field("velocity").value).Fin?
                ==> e.relativeSpeed == parse(field("velocity").value))
            && (Absent(field("prob")) && Absent(field("pc")) ==> e.pcAnalytic == Fin(DefaultPc))
            && (!Absent(field("prob")) && parse(field("prob").value).Fin? ==> e.pcAnalytic == parse(field("prob").value))
            && (!Absent(field("prob")) && parse(field("prob").value).NaN? ==> e.pcAnalytic == Fin(DefaultPc))
            && (Absent(field("prob")) && !Absent(field("pc")) && parse(field("pc").value).NaN?
                ==> e.pcAnalytic == Fin(DefaultPc))
            && (Absent(field("prob")) && !Absent(field("pc")) && parse(field("pc").value).Fin?
                ==> e.pcAnalytic == parse(field("pc").value))
  {
  }
}
