/**
 * The files the bot keeps under data/ and logs/, held as the fields of one `Disk` object,
 * and the two versions of the JSON loader the repository ships.
 */
module Files {
  import opened Wrappers
  import opened Quotes

  const LAST_RATES_PATH: string := "data/last_rates.json"
  const HISTORY_JSON_PATH: string := "data/history.json"
  const INITIAL_RATES_PATH: string := "data/initial_rates.json"
  const HISTORY_CSV_PATH: string := "data/dolar_history.csv"

  /** A JSON file meant to hold an object: absent, present but not decodable, or decoded. */
  datatype JsonFile<V> = Missing | Corrupt | Holds(content: map<string, V>)

  /** What utils/file_helpers.py `load_json` hands back: `None`, the list `[]`, or the decoded object. */
  datatype Loaded<V> = LoadedNone | LoadedList | LoadedDict(dict: map<string, V>)

  /**
   * utils/file_helpers.py `load_json` as written: a missing file falls off the end of the
   * function (`None`); an unreadable file, or one holding an empty object, gives `[]`.
   */
  function LoadJsonAsWritten<V>(f: JsonFile<V>): (r: Loaded<V>)
    ensures r.LoadedNone? <==> f.Missing?
    ensures r.LoadedList? <==> f.Corrupt? || f == Holds(map[])
    ensures r.LoadedDict? ==> f == Holds(r.dict) && r.dict != map[]
  {
    match f
    case Missing => LoadedNone
    case Corrupt => LoadedList
    case Holds(m) => if m == map[] then LoadedList else LoadedDict(m)
  }

  /**
   * The loader the callers are written against (and the one scheduler.py and
   * services/storage.py define for themselves): a missing or unreadable file reads as `{}`.
   */
  function LoadJson<V>(f: JsonFile<V>): (m: map<string, V>)
    ensures f.Holds? ==> m == f.content
    ensures !f.Holds? ==> m == map[]
  {
    if f.Holds? then f.content else map[]
  }

  /** The two loaders agree on every file holding a non-empty object. */
  lemma LoadersAgreeOnObjects<V>(f: JsonFile<V>)
    ensures LoadJsonAsWritten(f).LoadedDict? <==> LoadJson(f) != map[]
    ensures LoadJsonAsWritten(f).LoadedDict? ==> LoadJsonAsWritten(f).dict == LoadJson(f)
  {
  }

  /** The message a loader reports for an unreadable file (none otherwise). */
  function ReadErrors<V>(f: JsonFile<V>, path: string): seq<string> {
    if f.Corrupt? then ["Error leyendo " + path] else []
  }

  /** A CSV cell: text or a number. */
  datatype Cell = Text(text: string) | Num(x: real)

  /** A CSV line: a header naming the columns, or a data row. */
  datatype CsvLine = Header(columns: seq<string>) | Row(cells: seq<Cell>)

  /** A CSV file: whether it exists, and its lines. */
  datatype CsvFile = CsvFile(present: bool, lines: seq<CsvLine>)

  /** A file that does not exist is empty, and only its first line can be a header. */
  predicate CsvWellFormed(f: CsvFile) {
    (!f.present ==> f.lines == []) &&
    forall i :: 0 < i < |f.lines| ==> f.lines[i].Row?
  }

  function Rows(cells: seq<seq<Cell>>): (lines: seq<CsvLine>)
    ensures |lines| == |cells|
    ensures forall i :: 0 <= i < |cells| ==> lines[i] == Row(cells[i])
  {
    seq(|cells|, i requires 0 <= i < |cells| => Row(cells[i]))
  }

  /**
   * Appending `cells` in mode "a": the header goes first exactly when the file did not exist;
   * a write that fails leaves the file as it was.
   */
  function CsvAppended(f: CsvFile, columns: seq<string>, cells: seq<seq<Cell>>, writable: bool): (g: CsvFile)
    ensures !writable ==> g == f
    ensures writable ==> g.present
    ensures writable ==> g.lines == f.lines + (if f.present then [] else [Header(columns)]) + Rows(cells)
  {
    if !writable then f
    else CsvFile(true, f.lines + (if f.present then [] else [Header(columns)]) + Rows(cells))
  }

  /** Appending keeps the header-once shape: a header is written only into a file that did not exist. */
  lemma CsvAppendWellFormed(f: CsvFile, columns: seq<string>, cells: seq<seq<Cell>>, writable: bool)
    requires CsvWellFormed(f)
    ensures CsvWellFormed(CsvAppended(f, columns, cells, writable))
    ensures writable ==>
      var g := CsvAppended(f, columns, cells, writable);
      (!f.present <==> |g.lines| > |f.lines| && g.lines[|f.lines|].Header?)
  {
    var g := CsvAppended(f, columns, cells, writable);
    if writable {
      forall i | 0 < i < |g.lines|
        ensures g.lines[i].Row?
      {
        if i >= |f.lines| + (if f.present then 0 else 1) {
          assert g.lines[i] == Rows(cells)[i - |f.lines| - (if f.present then 0 else 1)];
        }
      }
    }
  }

  /** One record of data/history.json; scheduler.py writes its records without the percentages. */
  datatype HistoryRecord = HistoryRecord(timestamp: string, compra: real, venta: real,
                                         diffCompra: real, diffVenta: real, pct: Option<PctPair>)

  datatype PctPair = PctPair(pctCompra: real, pctVenta: real)

  /**
   * The files the bot reads and writes. `writable` says whether writes under data/ succeed;
   * it does not change during a call.
   */
  class Disk {
    const writable: bool
    /** data/last_rates.json: instrument -> last buy/sell. */
    var lastRates: JsonFile<RawQuote>
    /** data/history.json: instrument -> list of records. */
    var history: JsonFile<seq<HistoryRecord>>
    /** data/initial_rates.json: `YYYY-MM-DD` -> the rates that opened that day. */
    var initials: JsonFile<map<string, RawQuote>>
    /** data/dolar_history.csv. */
    var csv: CsvFile
    /** logs/errors.log, one message per line. */
    var errorLog: seq<string>
    /** Lines printed to standard output. */
    var console: seq<string>

    constructor(writable: bool)
      ensures this.writable == writable
      ensures lastRates == Missing && history == Missing && initials == Missing
      ensures csv == CsvFile(false, []) && errorLog == [] && console == []
    {
      this.writable := writable;
      lastRates := Missing;
      history := Missing;
      initials := Missing;
      csv := CsvFile(false, []);
      errorLog := [];
      console := [];
    }

    /** `log_error(msg)`: one line appended to logs/errors.log. */
    method LogError(msg: string)
      modifies this`errorLog
      ensures errorLog == old(errorLog) + [msg]
    {
      errorLog := errorLog + [msg];
    }

    /** `log_error` for each of `msgs`, in order. */
    method LogErrors(msgs: seq<string>)
      modifies this`errorLog
      ensures errorLog == old(errorLog) + msgs
    {
      errorLog := errorLog + msgs;
    }

    /** A `print(f"⚠️ {msg}")` for each of `msgs`, in order. */
    method PrintWarnings(msgs: seq<string>)
      modifies this`console
      ensures console == old(console) + Warnings(msgs)
    {
      console := console + Warnings(msgs);
    }

    /** `json.dump` into data/last_rates.json; `ok` is false when the write raised. */
    method WriteLastRates(m: map<string, RawQuote>) returns (ok: bool)
      modifies this`lastRates
      ensures ok == writable
      ensures lastRates == (if writable then Holds(m) else old(lastRates))
    {
      ok := writable;
      if writable {
        lastRates := Holds(m);
      }
    }

    /** `json.dump` into data/history.json. */
    method WriteHistory(m: map<string, seq<HistoryRecord>>) returns (ok: bool)
      modifies this`history
      ensures ok == writable
      ensures history == (if writable then Holds(m) else old(history))
    {
      ok := writable;
      if writable {
        history := Holds(m);
      }
    }

    /** `json.dump` into data/initial_rates.json. */
    method WriteInitials(m: map<string, map<string, RawQuote>>) returns (ok: bool)
      modifies this`initials
      ensures ok == writable
      ensures initials == (if writable then Holds(m) else old(initials))
    {
      ok := writable;
      if writable {
        initials := Holds(m);
      }
    }

    /** Appends to data/dolar_history.csv; `ok` is false when the write raised. */
    method AppendCsv(columns: seq<string>, cells: seq<seq<Cell>>) returns (ok: bool)
      modifies this`csv
      ensures ok == writable
      ensures csv == CsvAppended(old(csv), columns, cells, writable)
    {
      ok := writable;
      csv := CsvAppended(csv, columns, cells, writable);
    }
  }

  /** The message `save_json` reports when the write fails. */
  function WriteErrors(writable: bool, path: string): seq<string> {
    if writable then [] else ["Error escribiendo " + path]
  }

  /** A printed warning carries the ⚠️ prefix. */
  function Warnings(msgs: seq<string>): (w: seq<string>)
    ensures |w| == |msgs|
    ensures forall i :: 0 <= i < |msgs| ==> w[i] == "⚠️ " + msgs[i]
  {
    seq(|msgs|, i requires 0 <= i < |msgs| => "⚠️ " + msgs[i])
  }

  lemma WarningsAppend(a: seq<string>, b: seq<string>)
    ensures Warnings(a + b) == Warnings(a) + Warnings(b)
  {
  }
}
