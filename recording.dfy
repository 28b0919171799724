/** The recording store (FileLoggingService): an Idle/Armed machine with an
    append-only list of entries, a reload keyed by the session's file path,
    and the CSV serialiser. */
module Recording {
  import opened Telemetry

  class FileLoggingService {
    var isCurrentlyLogging: bool
    var logData: seq<LogEntry>
    var logFilePath: Option<string>

    constructor ()
      ensures !isCurrentlyLogging && logData == [] && logFilePath == None
    {
      isCurrentlyLogging := false;
      logData := [];
      logFilePath := None;
    }

    /** Idle to Armed: a new, empty recording under a fresh file name (the
        source derives it from the wall clock, so it is a parameter here).
        Already armed: nothing changes. */
    method StartLogging(freshPath: string)
      modifies this
      ensures old(isCurrentlyLogging) ==> unchanged(this)
      ensures !old(isCurrentlyLogging) ==>
                isCurrentlyLogging && logData == [] && logFilePath == Some(freshPath)
    {
      if isCurrentlyLogging {
        return;
      }
      isCurrentlyLogging := true;
      logData := [];
      logFilePath := Some(freshPath);
    }

    /** Armed to Idle; the entries and the path are kept. Idle: no-op. */
    method StopLogging()
      modifies this`isCurrentlyLogging
      ensures !isCurrentlyLogging
    {
      if !isCurrentlyLogging {
        return;
      }
      isCurrentlyLogging := false;
    }

    /** While armed, appends one entry stamped with the record's timestamp;
        while idle, ignores the record. */
    method AddLogEntry(data: CombinedRecord)
      modifies this`logData
      ensures isCurrentlyLogging ==> logData == old(logData) + [LogEntry(data.timestamp, data)]
      ensures !isCurrentlyLogging ==> logData == old(logData)
    {
      if !isCurrentlyLogging {
        return;
      }
      logData := logData + [LogEntry(data.timestamp, data)];
    }

    /** Only the in-progress (or last) recording can be reloaded, by its own
        path and only when it holds entries; anything else yields an empty
        log. */
    function LoadLogFile(filePath: string): (r: seq<CombinedRecord>)
      reads this
      ensures |logData| > 0 && logFilePath == Some(filePath) ==>
                |r| == |logData| && forall i :: 0 <= i < |r| ==> r[i] == logData[i].data
      ensures !(|logData| > 0 && logFilePath == Some(filePath)) ==> r == []
    {
      if |logData| > 0 && logFilePath == Some(filePath) then EntryData(logData) else []
    }

    /** The 'csv' export: the header line, then one line per entry, built by
        appending to the text in a loop. `fmt` renders a number as text. */
    method ExportCsv(fmt: real -> string) returns (csv: string)
      ensures csv == CsvText(logData, fmt)
    {
      csv := HeaderLine();
      var i := 0;
      while i < |logData|
        invariant 0 <= i <= |logData|
        invariant csv == HeaderLine() + RowsText(logData[..i], fmt)
      {
        var row := RowText(logData[i].data, fmt);
        ExportStep(HeaderLine(), logData, i, fmt);
        csv := csv + row;
        i := i + 1;
      }
      assert logData[..i] == logData;
    }
  }

  /** A recording session on a fresh store: arm it under `path`, offer it
      the records in order, disarm it, reload it by its own path and export
      it. Every offered record comes back, in order, and the export has one
      line per record after the header. */
  method CaptureSession(records: seq<CombinedRecord>, path: string, fmt: real -> string)
    returns (loaded: seq<CombinedRecord>, csv: string)
    requires PlainNumbers(fmt)
    ensures loaded == records
    ensures Occurrences('\n', csv) == |records| + 1
  {
    var store := new FileLoggingService();
    store.StartLogging(path);
    var i := 0;
    while i < |records|
      invariant 0 <= i <= |records|
      invariant store.isCurrentlyLogging && store.logFilePath == Some(path)
      invariant |store.logData| == i
      invariant forall j :: 0 <= j < i ==> store.logData[j] == LogEntry(records[j].timestamp, records[j])
    {
      store.AddLogEntry(records[i]);
      i := i + 1;
    }
    store.StopLogging();
    loaded := store.LoadLogFile(path);
    csv := store.ExportCsv(fmt);
    CsvLineCount(store.logData, fmt);
  }

  /** The records of a recording, in capture order. */
  function EntryData(entries: seq<LogEntry>): (r: seq<CombinedRecord>)
    ensures |r| == |entries|
    ensures forall i :: 0 <= i < |r| ==> r[i] == entries[i].data
  {
    seq(|entries|, i requires 0 <= i < |entries| => entries[i].data)
  }

  // ---------------------------------------------------------------- CSV

  /** A CSV field: a number, or the empty string. */
  datatype Cell = Blank | Num(value: real)

  const CsvHeaders: seq<string> := [
    "timestamp", "eulerCounter", "eulerX", "eulerY", "eulerZ",
    "velocityX", "velocityY", "velocityZ",
    "gravityX", "gravityY", "gravityZ",
    "angAccelX", "angAccelY", "angAccelZ",
    "linAccelX", "linAccelY", "linAccelZ",
    "freeHeapSize", "servoAngle",
    "rtkPosX", "rtkPosY", "rtkPosZ",
    "rtkOrientX", "rtkOrientY", "rtkOrientZ"]

  /** `value || ''` for a value reached through optional chaining: empty
      when the sample is absent and also when the value is 0 (falsy). */
  function OrBlank(present: bool, v: real): Cell
  {
    if present && v != 0.0 then Num(v) else Blank
  }

  /** The 18 LoRa values of a sample in the order of the LoRa columns of
      `CsvHeaders` (from `eulerCounter` to `servoAngle`). */
  function LoraValues(l: RocketTelemetry): (vs: seq<real>)
    ensures |vs| == 18
  {
    [l.eulerCounter as real,
     l.eulerAngles.x, l.eulerAngles.y, l.eulerAngles.z,
     l.velocity.x, l.velocity.y, l.velocity.z,
     l.gravity.x, l.gravity.y, l.gravity.z,
     l.angularAcceleration.x, l.angularAcceleration.y, l.angularAcceleration.z,
     l.linearAcceleration.x, l.linearAcceleration.y, l.linearAcceleration.z,
     l.freeHeapSize as real, l.servoMotorAngle]
  }

  /** The 6 RTK values of a sample in the order of the RTK columns of
      `CsvHeaders` (from `rtkPosX` to `rtkOrientZ`). */
  function RtkValues(k: RtkData): (vs: seq<real>)
    ensures |vs| == 6
  {
    [k.position.x, k.position.y, k.position.z,
     k.orientation.x, k.orientation.y, k.orientation.z]
  }

  /** The 25 fields of one record's row: the timestamp, then every LoRa
      value in its own column, then every RTK value in its own column, each
      empty when its sample is absent or the value is 0. */
  function CsvCells(r: CombinedRecord): (cells: seq<Cell>)
    ensures |cells| == |CsvHeaders| == 25
    ensures cells[0] == Num(r.timestamp as real)
    ensures r.lora.None? ==> forall i :: 1 <= i < 19 ==> cells[i] == Blank
    ensures r.rtk.None? ==> forall i :: 19 <= i < 25 ==> cells[i] == Blank
    ensures r.lora.Some? ==>
              forall i :: 0 <= i < 18 ==> cells[1 + i] == OrBlank(true, LoraValues(r.lora.value)[i])
    ensures r.rtk.Some? ==>
              forall i :: 0 <= i < 6 ==> cells[19 + i] == OrBlank(true, RtkValues(r.rtk.value)[i])
    ensures forall i :: 1 <= i < 25 ==> cells[i] == Blank || cells[i].value != 0.0
  {
    [Num(r.timestamp as real)] + LoraCells(r.lora) + RtkCells(r.rtk)
  }

  /** The LoRa columns: `lora?.field || ''` for each LoRa value in order. */
  function LoraCells(lora: Option<RocketTelemetry>): (cells: seq<Cell>)
    ensures |cells| == 18
    ensures forall i :: 0 <= i < 18 ==> cells[i] == OrBlank(lora.Some?, LoraValues(LoraOrZero(lora))[i])
  {
    var l := LoraOrZero(lora);
    seq(18, i requires 0 <= i < 18 => OrBlank(lora.Some?, LoraValues(l)[i]))
  }

  /** The RTK columns: `rtk?.field || ''` for each RTK value in order. */
  function RtkCells(rtk: Option<RtkData>): (cells: seq<Cell>)
    ensures |cells| == 6
    ensures forall i :: 0 <= i < 6 ==> cells[i] == OrBlank(rtk.Some?, RtkValues(RtkOrZero(rtk))[i])
  {
    var k := RtkOrZero(rtk);
    seq(6, i requires 0 <= i < 6 => OrBlank(rtk.Some?, RtkValues(k)[i]))
  }

  function LoraOrZero(lora: Option<RocketTelemetry>): RocketTelemetry
  {
    if lora.Some? then lora.value else ZeroTelemetry()
  }

  function RtkOrZero(rtk: Option<RtkData>): RtkData
  {
    if rtk.Some? then rtk.value else RtkData(0, Vector3(0.0, 0.0, 0.0), Vector3(0.0, 0.0, 0.0))
  }

  /** A LoRa sample whose every field is 0. */
  function ZeroTelemetry(): RocketTelemetry
  {
    var o := Vector3(0.0, 0.0, 0.0);
    RocketTelemetry(0, 0, o, o, o, o, o, 0, 0.0)
  }

  function CellText(c: Cell, fmt: real -> string): string
  {
    match c
    case Blank => ""
    case Num(v) => fmt(v)
  }

  function CellTexts(cells: seq<Cell>, fmt: real -> string): (texts: seq<string>)
    ensures |texts| == |cells|
    ensures forall i :: 0 <= i < |cells| ==> texts[i] == CellText(cells[i], fmt)
  {
    seq(|cells|, i requires 0 <= i < |cells| => CellText(cells[i], fmt))
  }

  /** `parts.join(',')`. */
  function JoinCommas(parts: seq<string>): string
  {
    if parts == [] then ""
    else if |parts| == 1 then parts[0]
    else JoinCommas(parts[..|parts| - 1]) + "," + parts[|parts| - 1]
  }

  /** A line of the file: the joined fields and a newline. */
  function Line(parts: seq<string>): string
  {
    JoinCommas(parts) + "\n"
  }

  function HeaderLine(): string
  {
    Line(CsvHeaders)
  }

  function RowText(r: CombinedRecord, fmt: real -> string): string
  {
    Line(CellTexts(CsvCells(r), fmt))
  }

  function RowsText(entries: seq<LogEntry>, fmt: real -> string): string
  {
    if entries == [] then ""
    else RowsText(entries[..|entries| - 1], fmt) + RowText(entries[|entries| - 1].data, fmt)
  }

  lemma AppendAssociates(a: string, b: string, c: string)
    ensures (a + b) + c == a + (b + c)
  {
  }

  /** One step of the export loop: the text so far plus the next entry's
      row is the text for one entry more. */
  lemma ExportStep(header: string, entries: seq<LogEntry>, i: nat, fmt: real -> string)
    requires i < |entries|
    ensures header + RowsText(entries[..i], fmt) + RowText(entries[i].data, fmt)
         == header + RowsText(entries[..i + 1], fmt)
  {
    RowsTextSnoc(entries[..i], entries[i], fmt);
    assert entries[..i] + [entries[i]] == entries[..i + 1];
    AppendAssociates(header, RowsText(entries[..i], fmt), RowText(entries[i].data, fmt));
  }

  /** Appending an entry appends its row line. */
  lemma RowsTextSnoc(entries: seq<LogEntry>, e: LogEntry, fmt: real -> string)
    ensures RowsText(entries + [e], fmt) == RowsText(entries, fmt) + RowText(e.data, fmt)
  {
    assert (entries + [e])[..|entries|] == entries;
  }

  function CsvText(entries: seq<LogEntry>, fmt: real -> string): string
  {
    HeaderLine() + RowsText(entries, fmt)
  }

  /** How often `ch` occurs in `s`. */
  function Occurrences(ch: char, s: string): nat
  {
    if s == [] then 0
    else Occurrences(ch, s[..|s| - 1]) + (if s[|s| - 1] == ch then 1 else 0)
  }

  /** The number formatter writes neither separators nor line breaks. */
  ghost predicate PlainNumbers(fmt: real -> string)
  {
    forall v :: ',' !in fmt(v) && '\n' !in fmt(v)
  }

  lemma {:induction false} OccurrencesAppend(ch: char, s: string, t: string)
    ensures Occurrences(ch, s + t) == Occurrences(ch, s) + Occurrences(ch, t)
    decreases |t|
  {
    if t == [] {
      assert s + t == s;
    } else {
      assert (s + t)[..|s + t| - 1] == s + t[..|t| - 1];
      OccurrencesAppend(ch, s, t[..|t| - 1]);
    }
  }

  lemma {:induction false} OccurrencesAbsent(ch: char, s: string)
    requires ch !in s
    ensures Occurrences(ch, s) == 0
    decreases |s|
  {
    if s != [] {
      var front := s[..|s| - 1];
      assert forall j :: 0 <= j < |front| ==> front[j] == s[j];
      OccurrencesAbsent(ch, front);
    }
  }

  /** Joining n comma-free parts writes n-1 commas (the n-th field ends at
      the line break) and adds no other character `ch`. */
  lemma {:induction false} JoinCommasCounts(parts: seq<string>, ch: char)
    requires parts != []
    requires forall i :: 0 <= i < |parts| ==> ',' !in parts[i] && ch !in parts[i]
    requires ch != ','
    ensures Occurrences(',', JoinCommas(parts)) == |parts| - 1
    ensures Occurrences(ch, JoinCommas(parts)) == 0
    decreases |parts|
  {
    var last := parts[|parts| - 1];
    OccurrencesAbsent(',', last);
    OccurrencesAbsent(ch, last);
    if |parts| > 1 {
      var front := parts[..|parts| - 1];
      JoinCommasCounts(front, ch);
      OccurrencesAppend(',', JoinCommas(front) + ",", last);
      OccurrencesAppend(',', JoinCommas(front), ",");
      OccurrencesAppend(ch, JoinCommas(front) + ",", last);
      OccurrencesAppend(ch, JoinCommas(front), ",");
      assert Occurrences(',', ",") == 1 by {
        assert ","[..0] == "";
      }
      assert Occurrences(ch, ",") == 0 by {
        assert ","[..0] == "";
      }
    }
  }

  /** Every line has 25 fields (24 separators) and exactly one newline. */
  lemma LineShape(parts: seq<string>)
    requires |parts| == 25
    requires forall i :: 0 <= i < |parts| ==> ',' !in parts[i] && '\n' !in parts[i]
    ensures Occurrences(',', Line(parts)) == 24
    ensures Occurrences('\n', Line(parts)) == 1
  {
    JoinCommasCounts(parts, '\n');
    OccurrencesAppend(',', JoinCommas(parts), "\n");
    OccurrencesAppend('\n', JoinCommas(parts), "\n");
    assert "\n"[..0] == "";
  }

  /** A data row has 25 fields, as the header does, and ends its line. */
  lemma RowHas25Fields(r: CombinedRecord, fmt: real -> string)
    requires PlainNumbers(fmt)
    ensures Occurrences(',', RowText(r, fmt)) == 24
    ensures Occurrences('\n', RowText(r, fmt)) == 1
    ensures RowText(r, fmt)[|RowText(r, fmt)| - 1] == '\n'
  {
    var texts := CellTexts(CsvCells(r), fmt);
    forall i | 0 <= i < |texts| ensures ',' !in texts[i] && '\n' !in texts[i] {
      match CsvCells(r)[i]
      case Blank =>
      case Num(v) =>
    }
    LineShape(texts);
  }

  lemma HeaderHas25Fields()
    ensures Occurrences(',', HeaderLine()) == 24
    ensures Occurrences('\n', HeaderLine()) == 1
  {
    HeaderNamesPlain();
    LineShape(CsvHeaders);
  }

  /** No column name contains a comma or a newline. */
  lemma HeaderNamesPlain()
    ensures forall i :: 0 <= i < |CsvHeaders| ==> ',' !in CsvHeaders[i] && '\n' !in CsvHeaders[i]
  {
  }

  /** n entries export as n + 1 newline-terminated lines. */
  lemma {:induction false} CsvLineCount(entries: seq<LogEntry>, fmt: real -> string)
    requires PlainNumbers(fmt)
    ensures Occurrences('\n', CsvText(entries, fmt)) == |entries| + 1
    ensures CsvText(entries, fmt)[|CsvText(entries, fmt)| - 1] == '\n'
  {
    HeaderHas25Fields();
    RowsLineCount(entries, fmt);
    OccurrencesAppend('\n', HeaderLine(), RowsText(entries, fmt));
    if entries != [] {
      RowHas25Fields(entries[|entries| - 1].data, fmt);
    }
  }

  lemma {:induction false} RowsLineCount(entries: seq<LogEntry>, fmt: real -> string)
    requires PlainNumbers(fmt)
    ensures Occurrences('\n', RowsText(entries, fmt)) == |entries|
    decreases |entries|
  {
    if entries != [] {
      var front := entries[..|entries| - 1];
      RowsLineCount(front, fmt);
      RowHas25Fields(entries[|entries| - 1].data, fmt);
      OccurrencesAppend('\n', RowsText(front, fmt), RowText(entries[|entries| - 1].data, fmt));
    }
  }

  /** The export is lossy: a LoRa sample whose fields are all 0 renders
      exactly like no LoRa sample at all. */
  lemma CsvConfusesZeroWithAbsent(ts: int, rtk: Option<RtkData>)
    ensures CsvCells(CombinedRecord(ts, Some(ZeroTelemetry()), rtk))
         == CsvCells(CombinedRecord(ts, None, rtk))
  {
  }

  /** Every present, nonzero value survives the export in its own column;
      a zero value becomes the empty field. */
  lemma CsvKeepsNonzeroValues(r: CombinedRecord)
    ensures r.lora.Some? ==> forall i :: 0 <= i < 18 ==>
              var v := LoraValues(r.lora.value)[i];
              (v != 0.0 <==> CsvCells(r)[1 + i] == Num(v)) && (v == 0.0 ==> CsvCells(r)[1 + i] == Blank)
    ensures r.rtk.Some? ==> forall i :: 0 <= i < 6 ==>
              var v := RtkValues(r.rtk.value)[i];
              (v != 0.0 <==> CsvCells(r)[19 + i] == Num(v)) && (v == 0.0 ==> CsvCells(r)[19 + i] == Blank)
  {
  }
}
