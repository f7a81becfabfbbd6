/**
 * storage/json_history.py: data/history.json maps each instrument to the list of its
 * records, and a record is only ever appended to its own instrument's list.
 */
module JsonHistory {
  import opened Wrappers
  import opened Files

  type History = map<string, seq<HistoryRecord>>

  /** The records stored for `name` (none when the name or the file is absent). */
  function RecordsOf(f: JsonFile<seq<HistoryRecord>>, name: string): seq<HistoryRecord> {
    var m := LoadJson(f);
    if name in m then m[name] else []
  }

  /** `setdefault(name, [])` followed by `append(rec)`. */
  function WithRecord(m: History, name: string, rec: HistoryRecord): (r: History)
    ensures r.Keys == m.Keys + {name}
    ensures forall k :: k in m && k != name ==> r[k] == m[k]
  {
    m[name := (if name in m then m[name] else []) + [rec]]
  }

  /** The file after `append_to_json_history(name, rec)`: load, append, save. */
  function HistoryAppended(f: JsonFile<seq<HistoryRecord>>, name: string, rec: HistoryRecord, writable: bool)
    : JsonFile<seq<HistoryRecord>>
  {
    if writable then Holds(WithRecord(LoadJson(f), name, rec)) else f
  }

  /** What one append logs: an unreadable file on load, a failed write on save. */
  function HistoryErrors(f: JsonFile<seq<HistoryRecord>>, writable: bool): seq<string> {
    ReadErrors(f, HISTORY_JSON_PATH) + WriteErrors(writable, HISTORY_JSON_PATH)
  }

  /**
   * One append: the name's list ends with `rec` after its earlier records, in their order; a
   * name seen for the first time gets `[rec]`; every other name keeps its list.
   */
  lemma AppendedRecords(f: JsonFile<seq<HistoryRecord>>, name: string, rec: HistoryRecord)
    ensures RecordsOf(HistoryAppended(f, name, rec, true), name) == RecordsOf(f, name) + [rec]
    ensures RecordsOf(f, name) == [] ==> RecordsOf(HistoryAppended(f, name, rec, true), name) == [rec]
    ensures forall k :: k != name ==> RecordsOf(HistoryAppended(f, name, rec, true), k) == RecordsOf(f, k)
  {
  }

  /**
   * `append_to_json_history(dolar_name, data)`. The load and the save report their own
   * failures, so nothing is raised.
   */
  method AppendToJsonHistory(disk: Disk, name: string, rec: HistoryRecord)
    modifies disk`history, disk`errorLog
    ensures disk.history == HistoryAppended(old(disk.history), name, rec, disk.writable)
    ensures disk.errorLog == old(disk.errorLog) + HistoryErrors(old(disk.history), disk.writable)
  {
    var historyData := LoadJson(disk.history);
    disk.LogErrors(ReadErrors(disk.history, HISTORY_JSON_PATH));
    var list := if name in historyData then historyData[name] else [];
    historyData := historyData[name := list + [rec]];
    var ok := disk.WriteHistory(historyData);
    disk.LogErrors(WriteErrors(ok, HISTORY_JSON_PATH));
  }

  /** A run of appends, oldest first. */
  datatype Append = Append(name: string, rec: HistoryRecord)

  function HistoryAfterAll(f: JsonFile<seq<HistoryRecord>>, appends: seq<Append>, writable: bool)
    : JsonFile<seq<HistoryRecord>>
  {
    if appends == [] then f
    else
      var last := appends[|appends| - 1];
      HistoryAppended(HistoryAfterAll(f, appends[..|appends| - 1], writable), last.name, last.rec, writable)
  }

  /** The records of `name` among `appends`, in order. */
  function RecordsFor(appends: seq<Append>, name: string): seq<HistoryRecord> {
    if appends == [] then []
    else
      var last := appends[|appends| - 1];
      RecordsFor(appends[..|appends| - 1], name) + (if last.name == name then [last.rec] else [])
  }

  /** The history is append-only: after any run of appends each name holds its old list followed by its new records. */
  lemma {:induction false} AppendOnly(f: JsonFile<seq<HistoryRecord>>, appends: seq<Append>, name: string)
    ensures RecordsOf(HistoryAfterAll(f, appends, true), name) == RecordsOf(f, name) + RecordsFor(appends, name)
  {
    if appends != [] {
      var init := appends[..|appends| - 1];
      var last := appends[|appends| - 1];
      AppendOnly(f, init, name);
      AppendedRecords(HistoryAfterAll(f, init, true), last.name, last.rec);
    }
  }

  // ---------------------------------------------------------------- as written

  /**
   * `append_to_json_history` over utils/file_helpers.py `load_json` as written: `None` or `[]`
   * has no `setdefault`, so the AttributeError is caught and logged and nothing is saved.
   */
  function HistoryAppendedAsWritten(f: JsonFile<seq<HistoryRecord>>, name: string, rec: HistoryRecord, writable: bool)
    : (g: JsonFile<seq<HistoryRecord>>)
    ensures !LoadJsonAsWritten(f).LoadedDict? ==> g == f
  {
    match LoadJsonAsWritten(f)
    case LoadedDict(m) => if writable then Holds(WithRecord(m, name, rec)) else f
    case _ => f
  }

  function HistoryErrorsAsWritten(f: JsonFile<seq<HistoryRecord>>, name: string, writable: bool): seq<string> {
    ReadErrors(f, HISTORY_JSON_PATH) +
    if LoadJsonAsWritten(f).LoadedDict? then WriteErrors(writable, HISTORY_JSON_PATH)
    else ["Error guardando historial JSON para " + name]
  }

  function HistoryAfterAllAsWritten(f: JsonFile<seq<HistoryRecord>>, appends: seq<Append>, writable: bool)
    : JsonFile<seq<HistoryRecord>>
  {
    if appends == [] then f
    else
      var last := appends[|appends| - 1];
      HistoryAppendedAsWritten(HistoryAfterAllAsWritten(f, appends[..|appends| - 1], writable), last.name, last.rec, writable)
  }

  /**
   * As written, a history file that is missing, unreadable or `{}` is never written: every
   * append in any run is dropped (and logged).
   */
  lemma {:induction false} HistoryNeverStartsAsWritten(f: JsonFile<seq<HistoryRecord>>, appends: seq<Append>, writable: bool)
    requires f.Missing? || f.Corrupt? || f == Holds(map[])
    ensures HistoryAfterAllAsWritten(f, appends, writable) == f
  {
    if appends != [] {
      HistoryNeverStartsAsWritten(f, appends[..|appends| - 1], writable);
    }
  }

  /** With the `{}` default, the first append to a missing file creates it with that one record. */
  lemma FirstAppendCreatesHistory(name: string, rec: HistoryRecord)
    ensures HistoryAppended(Missing, name, rec, true) == Holds(map[name := [rec]])
    ensures HistoryAppendedAsWritten(Missing, name, rec, true) == Missing
  {
    var empty: History := map[];
    assert name !in empty;
    var none: seq<HistoryRecord> := [];
    assert none + [rec] == [rec];
    assert WithRecord(empty, name, rec) == empty[name := [rec]];
  }
}
