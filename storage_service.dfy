/**
 * services/storage.py `guardar_cotizacion`: one quote written to the JSON history, the CSV
 * history and the remote table. Its own loader and saver print their failures instead of
 * logging them.
 */
module StorageService {
  import opened Wrappers
  import opened Files
  import opened Channels
  import opened JsonHistory

  /** The DictWriter's field names, in order. */
  const STORAGE_COLUMNS: seq<string> :=
    ["timestamp", "dolar_name", "compra", "venta", "diff_compra", "diff_venta", "pct_compra", "pct_venta"]

  /** `timestamp or now`: an absent or empty timestamp falls back to the current instant. */
  function Stamp(timestamp: Option<string>, now: string): (ts: string)
    ensures timestamp.Some? && timestamp.value != "" ==> ts == timestamp.value
    ensures timestamp.None? || timestamp.value == "" ==> ts == now
  {
    if timestamp.Some? && timestamp.value != "" then timestamp.value else now
  }

  /** The CSV row, one cell per field name. */
  function StorageCells(ts: string, name: string, compra: real, venta: real,
                        diffCompra: real, diffVenta: real, pctCompra: real, pctVenta: real): (cells: seq<Cell>)
    ensures |cells| == |STORAGE_COLUMNS|
  {
    [Text(ts), Text(name), Num(compra), Num(venta), Num(diffCompra), Num(diffVenta), Num(pctCompra), Num(pctVenta)]
  }

  /** What the remote step prints: nothing when unconfigured or accepted. */
  function PostErrors(configured: bool, state: RemoteState): (msgs: seq<string>)
    ensures msgs == [] <==> !configured || state.Accepting?
  {
    if !configured then []
    else match state
      case Accepting => []
      case Rejecting(_) => ["Error guardando en Supabase"]
      case Unreachable => ["Error conectando a Supabase"]
  }

  /**
   * `guardar_cotizacion`: append a seven-field record to the name's JSON list, append an
   * eight-field CSV row (header first when the file is new), then POST the row when the
   * Supabase variables are set. The CSV step has no handler: when it raises (`raised`) the
   * remote step never runs. The change threshold is never consulted.
   */
  method GuardarCotizacion(disk: Disk, net: Network, name: string, compra: real, venta: real,
                           diffCompra: real, diffVenta: real, pctCompra: real, pctVenta: real,
                           timestamp: Option<string>, now: string) returns (raised: bool)
    modifies disk`history, disk`csv, disk`console, net`remoteRows
    ensures raised == !disk.writable
    ensures var ts := Stamp(timestamp, now);
      disk.history == HistoryAppended(old(disk.history), name,
                                      HistoryRecord(ts, compra, venta, diffCompra, diffVenta, Some(PctPair(pctCompra, pctVenta))),
                                      disk.writable)
    ensures disk.csv == CsvAppended(old(disk.csv), STORAGE_COLUMNS,
      [StorageCells(Stamp(timestamp, now), name, compra, venta, diffCompra, diffVenta, pctCompra, pctVenta)], disk.writable)
    ensures net.remoteRows == old(net.remoteRows) +
      if !raised && net.remoteConfigured && net.remoteState.Accepting?
      then [RemoteRow(name, compra, venta, diffCompra, diffVenta, pctCompra, pctVenta, Stamp(timestamp, now))]
      else []
    ensures disk.console == old(disk.console) + Warnings(HistoryErrors(old(disk.history), disk.writable)) +
      if raised then [] else Warnings(PostErrors(net.remoteConfigured, net.remoteState))
  {
    var ts := Stamp(timestamp, now);
    SaveRecord(disk, name, HistoryRecord(ts, compra, venta, diffCompra, diffVenta, Some(PctPair(pctCompra, pctVenta))));
    // CSV
    var written := disk.AppendCsv(STORAGE_COLUMNS, [StorageCells(ts, name, compra, venta, diffCompra, diffVenta, pctCompra, pctVenta)]);
    if !written {
      return true;
    }
    // Supabase
    if net.remoteConfigured {
      var answer := net.Post(RemoteRow(name, compra, venta, diffCompra, diffVenta, pctCompra, pctVenta, ts));
      disk.PrintWarnings(PostErrors(true, answer));
    }
    raised := false;
  }

  /** Lines 57-68: the service's own load, `setdefault` plus `append`, and save, each failure printed. */
  method SaveRecord(disk: Disk, name: string, rec: HistoryRecord)
    modifies disk`history, disk`console
    ensures disk.history == HistoryAppended(old(disk.history), name, rec, disk.writable)
    ensures disk.console == old(disk.console) + Warnings(HistoryErrors(old(disk.history), disk.writable))
  {
    var historyData := LoadJson(disk.history);
    disk.PrintWarnings(ReadErrors(disk.history, HISTORY_JSON_PATH));
    var list := if name in historyData then historyData[name] else [];
    historyData := historyData[name := list + [rec]];
    var saved := disk.WriteHistory(historyData);
    disk.PrintWarnings(WriteErrors(saved, HISTORY_JSON_PATH));
    WarningsAppend(ReadErrors(old(disk.history), HISTORY_JSON_PATH), WriteErrors(disk.writable, HISTORY_JSON_PATH));
  }

  /**
   * Every call appends exactly one record to the name's list, whatever the size of the change:
   * even an unchanged quote is recorded.
   */
  lemma EveryCallAppends(f: JsonFile<seq<HistoryRecord>>, name: string, ts: string, compra: real, venta: real)
    ensures var rec := HistoryRecord(ts, compra, venta, 0.0, 0.0, Some(PctPair(0.0, 0.0)));
      |RecordsOf(HistoryAppended(f, name, rec, true), name)| == |RecordsOf(f, name)| + 1
  {
    AppendedRecords(f, name, HistoryRecord(ts, compra, venta, 0.0, 0.0, Some(PctPair(0.0, 0.0))));
  }
}
