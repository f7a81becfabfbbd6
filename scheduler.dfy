/**
 * scheduler.py: the standalone monitoring script. It keeps its own snapshot (loaded from
 * data/last_rates.json at start), sends the market notices without ever clearing its flags,
 * compares with the snapshot by truthiness for the alert and by `is not None` for the history,
 * and writes the history CSV without catching a failed write.
 */
module SchedulerScript {
  import opened Wrappers
  import opened Text
  import opened OrderedDict
  import opened Quotes
  import opened Formatters
  import opened DolarServices
  import opened Files
  import opened Channels
  import opened JsonHistory

  /** Line 19: the alert and history threshold of this script. */
  const SCRIPT_THRESHOLD: real := 0.5
  const SCRIPT_OPEN_TEXT: string := "🏦 ¡El mercado abrió! Comenzando monitoreo de cotizaciones..."
  const SCRIPT_CLOSE_TEXT: string := "🏛️ ¡El mercado cerró! Monitoreo finalizado por hoy."
  /** Line 177: the columns of the history CSV written by `log_history_if_significant`. */
  const HISTORY_COLUMNS: seq<string> := ["timestamp", "dolar_name", "compra", "venta", "diff_compra", "diff_venta"]
  /** Lines 196-203: the columns of the row written by `log_rates_auto`. */
  const AUTO_COLUMNS: seq<string> := ["timestamp"] + DOLAR_TYPES
  const AUTO_SAVED: string := "✅ Cotizaciones guardadas: "
  const AUTO_FAILED: string := "⚠️ Error guardando cotizaciones automáticas"

  // ---------------------------------------------------------------- the two comparisons

  /** Python truthiness of `last_data.get(...)`: present and non-zero. */
  predicate Truthy(x: Option<real>) {
    x.Some? && x.value != 0.0
  }

  /** `last_rates.get(name, {})`. */
  function Lookup(m: map<string, RawQuote>, name: string): RawQuote {
    if name in m then m[name] else RawQuote(None, None)
  }

  /** Lines 109-112: the change shown in the alert; a missing or zero baseline shows no change. */
  function MessageDelta(q: Quote, last: RawQuote): (d: Delta)
    ensures Truthy(last.compra) ==> last.compra.value + d.diffCompra == q.compra
    ensures Truthy(last.compra) ==> -1.0 / 200.0 <= d.pctCompra - d.diffCompra / last.compra.value * 100.0 <= 1.0 / 200.0
    ensures Truthy(last.venta) ==> last.venta.value + d.diffVenta == q.venta
    ensures Truthy(last.venta) ==> -1.0 / 200.0 <= d.pctVenta - d.diffVenta / last.venta.value * 100.0 <= 1.0 / 200.0
    ensures !Truthy(last.compra) ==> d.diffCompra == 0.0 && d.pctCompra == 0.0
    ensures !Truthy(last.venta) ==> d.diffVenta == 0.0 && d.pctVenta == 0.0
  {
    var dc := if Truthy(last.compra) then q.compra - last.compra.value else 0.0;
    var dv := if Truthy(last.venta) then q.venta - last.venta.value else 0.0;
    Delta(dc, dv, if Truthy(last.compra) then Pct(dc, last.compra.value) else 0.0,
                  if Truthy(last.venta) then Pct(dv, last.venta.value) else 0.0)
  }

  /** Lines 153-154: the change the history records; only a missing baseline counts as no change. */
  function HistoryDiff(current: real, last: Option<real>): (d: real)
    ensures last.Some? ==> last.value + d == current
    ensures last.None? ==> d == 0.0
  {
    if last.Some? then current - last.value else 0.0
  }

  /**
   * The alert and the history agree on the change, except over a stored zero: there the alert
   * shows no change while the history records the whole current value.
   */
  lemma PathsDisagreeOnlyOverZero(q: Quote, last: RawQuote)
    ensures MessageDelta(q, last).diffCompra == HistoryDiff(q.compra, last.compra) <==>
      last.compra != Some(0.0) || q.compra == 0.0
    ensures MessageDelta(q, last).diffVenta == HistoryDiff(q.venta, last.venta) <==>
      last.venta != Some(0.0) || q.venta == 0.0
  {
  }

  /** One parseable rate of a tick, with the baseline the snapshot held for it. */
  datatype ScriptObservation = ScriptObservation(name: string, quote: Quote, last: RawQuote)

  predicate Alerted(o: ScriptObservation, threshold: real) {
    var d := MessageDelta(o.quote, o.last);
    Significant(d.diffCompra, d.diffVenta, threshold)
  }

  /** Line 156 negated: the history is written when either recorded change reaches the threshold. */
  predicate HistoryWorthy(o: ScriptObservation, threshold: real) {
    Significant(HistoryDiff(o.quote.compra, o.last.compra), HistoryDiff(o.quote.venta, o.last.venta), threshold)
  }

  /** The first sighting of a name is neither alerted nor written to the history. */
  lemma FirstSightIsQuiet(q: Quote, name: string, threshold: real)
    requires threshold > 0.0
    ensures !Alerted(ScriptObservation(name, q, RawQuote(None, None)), threshold)
    ensures !HistoryWorthy(ScriptObservation(name, q, RawQuote(None, None)), threshold)
  {
  }

  /** The snapshot after the loop: every parseable rate overwrites its name. */
  function ScriptSnapshot(last: map<string, RawQuote>, rates: ODict<RawQuote>): map<string, RawQuote> {
    if rates == [] then last
    else
      var e := rates[|rates| - 1];
      var s := ScriptSnapshot(last, rates[..|rates| - 1]);
      if Parse(e.value).Some? then s[e.key := e.value] else s
  }

  /** A parseable rate of a well-formed dict is what the snapshot holds for its name after the loop. */
  lemma {:induction false} ScriptSnapshotHas(last: map<string, RawQuote>, rates: ODict<RawQuote>, i: nat)
    requires WellFormed(rates) && i < |rates| && Parse(rates[i].value).Some?
    ensures rates[i].key in ScriptSnapshot(last, rates) && ScriptSnapshot(last, rates)[rates[i].key] == rates[i].value
  {
    var init := rates[..|rates| - 1];
    if i < |rates| - 1 {
      assert init[i] == rates[i];
      ScriptSnapshotHas(last, init, i);
      assert rates[|rates| - 1].key != rates[i].key;
    }
  }

  /** The observations of the loop, in order, each against the snapshot as it stands then. */
  function ScriptObs(last: map<string, RawQuote>, rates: ODict<RawQuote>): seq<ScriptObservation> {
    if rates == [] then []
    else
      var e := rates[|rates| - 1];
      var init := rates[..|rates| - 1];
      ScriptObs(last, init) +
        if Parse(e.value).Some? then [ScriptObservation(e.key, Parse(e.value).value, Lookup(ScriptSnapshot(last, init), e.key))] else []
  }

  lemma ScriptTickStep(last: map<string, RawQuote>, rates: ODict<RawQuote>, i: nat)
    requires i < |rates|
    ensures var init, e := rates[..i], rates[i];
      ScriptSnapshot(last, rates[..i + 1]) ==
        (if Parse(e.value).Some? then ScriptSnapshot(last, init)[e.key := e.value] else ScriptSnapshot(last, init)) &&
      ScriptObs(last, rates[..i + 1]) == ScriptObs(last, init) +
        (if Parse(e.value).Some? then [ScriptObservation(e.key, Parse(e.value).value, Lookup(ScriptSnapshot(last, init), e.key))] else [])
  {
    assert rates[..i + 1][..i] == rates[..i];
  }

  /** A prefix of the rates yields a prefix of the observations. */
  lemma {:induction false} ScriptObsPrefix(last: map<string, RawQuote>, rates: ODict<RawQuote>, j: nat)
    requires j <= |rates|
    ensures ScriptObs(last, rates[..j]) <= ScriptObs(last, rates)
    decreases |rates| - j
  {
    if j < |rates| {
      ScriptTickStep(last, rates, j);
      ScriptObsPrefix(last, rates, j + 1);
      assert rates[..|rates|] == rates;
    } else {
      assert rates[..j] == rates;
    }
  }

  predicate NoneWorthy(obs: seq<ScriptObservation>, threshold: real) {
    forall o :: o in obs ==> !HistoryWorthy(o, threshold)
  }

  function ScriptBlockOf(o: ScriptObservation): AlertBlock {
    var d := MessageDelta(o.quote, o.last);
    AlertBlock(TitleCase(ReplaceChar(o.name, '_', ' ')), o.quote.compra, o.quote.venta,
               Emoji(d.diffCompra), Emoji(d.diffVenta), d)
  }

  /** The alert blocks of the alerted observations, in order. */
  function ScriptBlocks(obs: seq<ScriptObservation>, threshold: real): seq<AlertBlock> {
    if obs == [] then []
    else
      ScriptBlocks(obs[..|obs| - 1], threshold) +
      if Alerted(obs[|obs| - 1], threshold) then [ScriptBlockOf(obs[|obs| - 1])] else []
  }

  /** Exactly the alerted observations get a block. */
  lemma {:induction false} ScriptBlocksCount(obs: seq<ScriptObservation>, threshold: real)
    ensures ScriptBlocks(obs, threshold) == [] <==> forall o :: o in obs ==> !Alerted(o, threshold)
  {
    if obs != [] {
      var init := obs[..|obs| - 1];
      ScriptBlocksCount(init, threshold);
      assert obs == init + [obs[|obs| - 1]];
    }
  }

  // ---------------------------------------------------------------- the history

  function ScriptRecord(o: ScriptObservation, ts: string): HistoryRecord {
    HistoryRecord(ts, o.quote.compra, o.quote.venta, HistoryDiff(o.quote.compra, o.last.compra),
                  HistoryDiff(o.quote.venta, o.last.venta), None)
  }

  function ScriptRow(o: ScriptObservation, ts: string): seq<Cell> {
    [Text(ts), Text(o.name), Num(o.quote.compra), Num(o.quote.venta),
     Num(HistoryDiff(o.quote.compra, o.last.compra)), Num(HistoryDiff(o.quote.venta, o.last.venta))]
  }

  /** The files `log_history_if_significant` touches. */
  datatype HistoryFiles = HistoryFiles(history: JsonFile<seq<HistoryRecord>>, csv: CsvFile, log: seq<string>)

  /** The files after `log_history_if_significant` for one observation. */
  function HistoryStep(h: HistoryFiles, o: ScriptObservation, ts: string, threshold: real, writable: bool): HistoryFiles {
    if !HistoryWorthy(o, threshold) then h
    else HistoryFiles(HistoryAppended(h.history, o.name, ScriptRecord(o, ts), writable),
                      CsvAppended(h.csv, HISTORY_COLUMNS, [ScriptRow(o, ts)], writable),
                      h.log + HistoryErrors(h.history, writable))
  }

  function HistoryAll(h: HistoryFiles, obs: seq<ScriptObservation>, ts: string, threshold: real, writable: bool): HistoryFiles {
    if obs == [] then h
    else HistoryStep(HistoryAll(h, obs[..|obs| - 1], ts, threshold, writable), obs[|obs| - 1], ts, threshold, writable)
  }

  /** On a writable disk the CSV gains exactly one row per history-worthy observation. */
  lemma {:induction false} HistoryRowsCount(h: HistoryFiles, obs: seq<ScriptObservation>, ts: string, threshold: real)
    requires h.csv.present
    ensures var g := HistoryAll(h, obs, ts, threshold, true);
      g.csv.present && |g.csv.lines| == |h.csv.lines| + |Worthy(obs, threshold)| && g.log == h.log + ReadErrorsFor(h.history, obs, threshold)
  {
    if obs != [] {
      var init := obs[..|obs| - 1];
      HistoryRowsCount(h, init, ts, threshold);
      var g0 := HistoryAll(h, init, ts, threshold, true);
      if HistoryWorthy(obs[|obs| - 1], threshold) {
        HistoryStaysReadable(h, init, ts, threshold);
      }
    }
  }

  function Worthy(obs: seq<ScriptObservation>, threshold: real): seq<ScriptObservation> {
    if obs == [] then []
    else Worthy(obs[..|obs| - 1], threshold) + if HistoryWorthy(obs[|obs| - 1], threshold) then [obs[|obs| - 1]] else []
  }

  /** A corrupt JSON history is reported by the first write only; after it the file is readable. */
  function ReadErrorsFor(f: JsonFile<seq<HistoryRecord>>, obs: seq<ScriptObservation>, threshold: real): seq<string> {
    if Worthy(obs, threshold) == [] then [] else ReadErrors(f, HISTORY_JSON_PATH)
  }

  lemma {:induction false} HistoryStaysReadable(h: HistoryFiles, obs: seq<ScriptObservation>, ts: string, threshold: real)
    ensures Worthy(obs, threshold) != [] ==> HistoryAll(h, obs, ts, threshold, true).history.Holds?
    ensures Worthy(obs, threshold) == [] ==> HistoryAll(h, obs, ts, threshold, true).history == h.history
  {
    if obs != [] {
      HistoryStaysReadable(h, obs[..|obs| - 1], ts, threshold);
    }
  }

  /** Observations none of which is worth a row leave the history files as they were. */
  lemma {:induction false} HistoryAllQuiet(h: HistoryFiles, obs: seq<ScriptObservation>, ts: string, threshold: real, writable: bool)
    requires NoneWorthy(obs, threshold)
    ensures HistoryAll(h, obs, ts, threshold, writable) == h
  {
    if obs != [] {
      assert obs[|obs| - 1] in obs;
      NoneWorthyPrefix(obs[..|obs| - 1], obs, threshold);
      HistoryAllQuiet(h, obs[..|obs| - 1], ts, threshold, writable);
    }
  }

  // ---------------------------------------------------------------- the loop

  /**
   * What the loop of lines 98-132 carries: the snapshot, the alert blocks and the history files,
   * with `clean` telling whether no observation so far was worth a history row.
   */
  datatype ScriptGather = ScriptGather(last: map<string, RawQuote>, messages: seq<AlertBlock>, files: HistoryFiles, clean: bool)

  /** One turn of the loop that does not raise. */
  function ScriptNext(g: ScriptGather, e: Entry<RawQuote>, ts: string, threshold: real, writable: bool): ScriptGather {
    match Parse(e.value)
    case None => g
    case Some(q) =>
      var o := ScriptObservation(e.key, q, Lookup(g.last, e.key));
      ScriptGather(g.last[e.key := e.value],
                   g.messages + (if Alerted(o, threshold) then [ScriptBlockOf(o)] else []),
                   HistoryStep(g.files, o, ts, threshold, writable),
                   g.clean && !HistoryWorthy(o, threshold))
  }

  function ScriptAll(g0: ScriptGather, rates: ODict<RawQuote>, ts: string, threshold: real, writable: bool): ScriptGather {
    if rates == [] then g0
    else ScriptNext(ScriptAll(g0, rates[..|rates| - 1], ts, threshold, writable), rates[|rates| - 1], ts, threshold, writable)
  }

  /** Folding `ScriptNext` over the first `i` rates gathers what the specification functions describe. */
  lemma {:induction false} ScriptAllPrefix(last0: map<string, RawQuote>, h0: HistoryFiles, rates: ODict<RawQuote>, i: nat,
                                           ts: string, threshold: real, writable: bool)
    requires i <= |rates|
    ensures var obs := ScriptObs(last0, rates[..i]);
      ScriptAll(ScriptGather(last0, [], h0, true), rates[..i], ts, threshold, writable) ==
        ScriptGather(ScriptSnapshot(last0, rates[..i]), ScriptBlocks(obs, threshold),
                     HistoryAll(h0, obs, ts, threshold, writable), NoneWorthy(obs, threshold))
  {
    if i == 0 {
      assert rates[..0] == [];
    } else {
      var g0 := ScriptGather(last0, [], h0, true);
      ScriptAllPrefix(last0, h0, rates, i - 1, ts, threshold, writable);
      ScriptTickStep(last0, rates, i - 1);
      var init, e := rates[..i - 1], rates[i - 1];
      assert rates[..i][..i - 1] == init && rates[..i][i - 1] == e;
      var g := ScriptAll(g0, init, ts, threshold, writable);
      assert ScriptAll(g0, rates[..i], ts, threshold, writable) == ScriptNext(g, e, ts, threshold, writable);
      var obs := ScriptObs(last0, init);
      if Parse(e.value).Some? {
        var o := ScriptObservation(e.key, Parse(e.value).value, Lookup(ScriptSnapshot(last0, init), e.key));
        assert ScriptObs(last0, rates[..i]) == obs + [o];
        ScriptSpecStep(h0, obs, o, ts, threshold, writable);
      } else {
        assert ScriptObs(last0, rates[..i]) == obs + [] == obs;
      }
    }
  }

  /** How one more observation extends the blocks, the history files and `NoneWorthy`. */
  lemma ScriptSpecStep(h0: HistoryFiles, obs: seq<ScriptObservation>, o: ScriptObservation, ts: string, threshold: real, writable: bool)
    ensures ScriptBlocks(obs + [o], threshold) == ScriptBlocks(obs, threshold) + (if Alerted(o, threshold) then [ScriptBlockOf(o)] else [])
    ensures HistoryAll(h0, obs + [o], ts, threshold, writable) == HistoryStep(HistoryAll(h0, obs, ts, threshold, writable), o, ts, threshold, writable)
    ensures NoneWorthy(obs + [o], threshold) == (NoneWorthy(obs, threshold) && !HistoryWorthy(o, threshold))
  {
    assert (obs + [o])[..|obs|] == obs;
    assert forall x :: x in obs + [o] <==> x in obs || x == o;
  }

  /** Nothing worth a row in a sequence means nothing worth a row in any prefix of it. */
  lemma NoneWorthyPrefix(a: seq<ScriptObservation>, b: seq<ScriptObservation>, threshold: real)
    requires a <= b && NoneWorthy(b, threshold)
    ensures NoneWorthy(a, threshold)
  {
    forall o | o in a ensures !HistoryWorthy(o, threshold) {
      var k :| 0 <= k < |a| && a[k] == o;
      assert b[k] == o;
    }
  }

  /** The rate at index `i` is parseable and its observation is worth a history row. */
  predicate WorthyAt(last: map<string, RawQuote>, rates: ODict<RawQuote>, i: nat, threshold: real)
    requires i < |rates|
  {
    Parse(rates[i].value).Some? &&
    HistoryWorthy(ScriptObservation(rates[i].key, Parse(rates[i].value).value,
                                    Lookup(ScriptSnapshot(last, rates[..i]), rates[i].key)), threshold)
  }

  /**
   * The index, from `i` on, of the first rate worth a history row (`|rates|` if none is): on a
   * disk that cannot be written, the rate whose CSV write raises out of the tick.
   */
  function FirstWorthy(last: map<string, RawQuote>, rates: ODict<RawQuote>, threshold: real, i: nat): (k: nat)
    requires i <= |rates|
    ensures i <= k <= |rates|
    ensures k < |rates| ==> WorthyAt(last, rates, k, threshold)
    decreases |rates| - i
  {
    if i == |rates| then |rates|
    else if WorthyAt(last, rates, i, threshold) then i
    else FirstWorthy(last, rates, threshold, i + 1)
  }

  /**
   * When nothing before `i` is worth a history row and the rate at `i` is, the loop stops at `i`:
   * no rate before it is skipped over.
   */
  lemma {:induction false} FirstWorthyIs(last: map<string, RawQuote>, rates: ODict<RawQuote>, threshold: real, i: nat, j: nat)
    requires j <= i < |rates| && NoneWorthy(ScriptObs(last, rates[..i]), threshold) && WorthyAt(last, rates, i, threshold)
    ensures FirstWorthy(last, rates, threshold, j) == i
    decreases i - j
  {
    if j < i {
      if Parse(rates[j].value).Some? {
        ScriptTickStep(last, rates, j);
        ScriptObsPrefix(last, rates[..i], j + 1);
        assert rates[..i][..j + 1] == rates[..j + 1];
        var o := ScriptObservation(rates[j].key, Parse(rates[j].value).value, Lookup(ScriptSnapshot(last, rates[..j]), rates[j].key));
        assert o in ScriptObs(last, rates[..j + 1]);
      }
      FirstWorthyIs(last, rates, threshold, i, j + 1);
    }
  }

  /** No rate is skipped over: every rate before the first worthy one is not worthy. */
  lemma {:induction false} FirstWorthySkips(last: map<string, RawQuote>, rates: ODict<RawQuote>, threshold: real, i: nat)
    requires i <= |rates|
    ensures forall m :: i <= m < FirstWorthy(last, rates, threshold, i) ==> !WorthyAt(last, rates, m, threshold)
    decreases |rates| - i
  {
    if i < |rates| && !WorthyAt(last, rates, i, threshold) {
      FirstWorthySkips(last, rates, threshold, i + 1);
    }
  }

  /** Rates none of which is worthy yield observations none of which is. */
  lemma {:induction false} NoneWorthyBefore(last: map<string, RawQuote>, rates: ODict<RawQuote>, threshold: real, k: nat)
    requires k <= |rates|
    requires forall m :: 0 <= m < k ==> !WorthyAt(last, rates, m, threshold)
    ensures NoneWorthy(ScriptObs(last, rates[..k]), threshold)
  {
    if k == 0 {
      assert rates[..0] == [];
    } else {
      NoneWorthyBefore(last, rates, threshold, k - 1);
      ScriptTickStep(last, rates, k - 1);
      assert !WorthyAt(last, rates, k - 1, threshold);
    }
  }

  /**
   * The first rate worth a history row exists exactly when some observation of the whole tick
   * is worth one, and every observation before it is not.
   */
  lemma FirstWorthyFound(last: map<string, RawQuote>, rates: ODict<RawQuote>, threshold: real)
    ensures FirstWorthy(last, rates, threshold, 0) < |rates| <==> !NoneWorthy(ScriptObs(last, rates), threshold)
    ensures NoneWorthy(ScriptObs(last, rates[..FirstWorthy(last, rates, threshold, 0)]), threshold)
  {
    var k := FirstWorthy(last, rates, threshold, 0);
    FirstWorthySkips(last, rates, threshold, 0);
    NoneWorthyBefore(last, rates, threshold, k);
    if k < |rates| {
      ScriptTickStep(last, rates, k);
      ScriptObsPrefix(last, rates, k + 1);
      var o := ScriptObservation(rates[k].key, Parse(rates[k].value).value, Lookup(ScriptSnapshot(last, rates[..k]), rates[k].key));
      assert o in ScriptObs(last, rates[..k + 1]);
    } else {
      assert rates[..k] == rates;
    }
  }

  // ---------------------------------------------------------------- the tick's effect

  /** Everything a tick of the script can change besides the flags. */
  datatype ScriptView = ScriptView(last: map<string, RawQuote>, history: JsonFile<seq<HistoryRecord>>, csv: CsvFile,
                                   stored: JsonFile<RawQuote>, log: seq<string>, sent: seq<Outgoing>)

  /** What `safe_send_message` logs for the notices of lines 75-83. */
  function ScriptGateErrors(hour: nat, openSent: bool, closeSent: bool, up: bool): seq<string> {
    if (hour == 10 && !openSent) || (hour == 17 && !closeSent) then SendErrors(up) else []
  }

  /** The view after the notices of lines 75-83. */
  function AfterScriptGate(v: ScriptView, hour: nat, openSent: bool, closeSent: bool, up: bool): ScriptView {
    v.(sent := v.sent + ScriptNotices(hour, openSent, closeSent, up),
       log := v.log + ScriptGateErrors(hour, openSent, closeSent, up))
  }

  /**
   * The view after a completed pass of lines 89-139: the unused history load logs an unreadable
   * file, the loop writes the history files and the snapshot, the snapshot is saved, and the
   * header-less alert goes out only when some change was alerted.
   */
  function AfterScript(v: ScriptView, rates: ODict<RawQuote>, ts: string, threshold: real, writable: bool, up: bool): ScriptView {
    var obs := ScriptObs(v.last, rates);
    var h := HistoryAll(HistoryFiles(v.history, v.csv, v.log + ReadErrors(v.history, HISTORY_JSON_PATH)), obs, ts, threshold, writable);
    var blocks := ScriptBlocks(obs, threshold);
    var last := ScriptSnapshot(v.last, rates);
    ScriptView(last, h.history, h.csv, if writable then Holds(last) else v.stored,
               h.log + WriteErrors(writable, LAST_RATES_PATH) + (if blocks == [] then [] else SendErrors(up)),
               v.sent + if up && blocks != [] then [Outgoing(ConfiguredChat, Alert(None, blocks))] else [])
  }

  /**
   * The view after a pass that raised out of the CSV write of the first rate worth a history row:
   * the unused load and that rate's history load log an unreadable file, its JSON save logs the
   * failed write, the snapshot holds only the rates before it, and nothing else changes.
   */
  function ScriptAborted(v: ScriptView, rates: ODict<RawQuote>, threshold: real): ScriptView {
    var k := FirstWorthy(v.last, rates, threshold, 0);
    v.(last := ScriptSnapshot(v.last, rates[..k]),
       log := v.log + ReadErrors(v.history, HISTORY_JSON_PATH) + HistoryErrors(v.history, false))
  }

  /** A name the rates never mention keeps its baseline through the loop. */
  lemma {:induction false} SnapshotElsewhere(last: map<string, RawQuote>, rates: ODict<RawQuote>, name: string)
    requires forall i :: 0 <= i < |rates| ==> rates[i].key != name
    ensures Lookup(ScriptSnapshot(last, rates), name) == Lookup(last, name)
  {
    if rates != [] {
      SnapshotElsewhere(last, rates[..|rates| - 1], name);
    }
  }

  /**
   * The aborted tick leaves the snapshot stale, so while the disk stays unwritable, a tick over
   * the same rates raises again at the same rate: the rates after it never reach the snapshot and
   * no alert goes out. (Every rate before it now matches the snapshot; its own baseline is unchanged.)
   */
  lemma AbortRepeats(v: ScriptView, rates: ODict<RawQuote>, threshold: real)
    requires WellFormed(rates) && threshold > 0.0 && !NoneWorthy(ScriptObs(v.last, rates), threshold)
    ensures var w := ScriptAborted(v, rates, threshold);
      !NoneWorthy(ScriptObs(w.last, rates), threshold) &&
      FirstWorthy(w.last, rates, threshold, 0) == FirstWorthy(v.last, rates, threshold, 0)
  {
    var k := FirstWorthy(v.last, rates, threshold, 0);
    FirstWorthyFound(v.last, rates, threshold);
    var last' := ScriptSnapshot(v.last, rates[..k]);
    assert rates[..k] == rates[..k][..k];
    SnapshotElsewhere(last', rates[..k], rates[k].key);
    assert WorthyAt(last', rates, k, threshold);
    forall m | 0 <= m < k ensures !WorthyAt(last', rates, m, threshold) {
      if Parse(rates[m].value).Some? {
        assert rates[..m] == rates[..k][..m];
        SnapshotElsewhere(last', rates[..m], rates[m].key);
        ScriptSnapshotHas(v.last, rates[..k], m);
      }
    }
    NoneWorthyBefore(last', rates, threshold, k);
    FirstWorthyIs(last', rates, threshold, k, 0);
    FirstWorthyFound(last', rates, threshold);
  }

  /**
   * The view after a `check_dolar_changes()` at `hour`: the notices, then, inside 10 <= hour < 17
   * only, a pass over the fetched rates, completed unless the disk cannot be written and some
   * change is worth a history row.
   */
  function AfterScriptCheck(v: ScriptView, hour: nat, openSent: bool, closeSent: bool, ts: string, fetched: FetchResult,
                            threshold: real, writable: bool, up: bool): ScriptView
  {
    var v1 := AfterScriptGate(v, hour, openSent, closeSent, up);
    var rates := AsRaw(fetched.Rates());
    if !(10 <= hour < 17) then v1
    else if writable || NoneWorthy(ScriptObs(v1.last, rates), threshold) then AfterScript(v1, rates, ts, threshold, writable, up)
    else ScriptAborted(v1, rates, threshold)
  }

  /** A tick that does not raise leaves every stored pair it was given under its name, alerted or not. */
  lemma {:induction false} CompletedTickStoresEveryRate(v: ScriptView, rates: ODict<RawQuote>, ts: string, threshold: real,
                                                        writable: bool, up: bool, i: nat)
    requires WellFormed(rates) && i < |rates| && Parse(rates[i].value).Some?
    ensures var w := AfterScript(v, rates, ts, threshold, writable, up);
      rates[i].key in w.last && w.last[rates[i].key] == rates[i].value &&
      (writable ==> w.stored == Holds(w.last))
  {
    ScriptSnapshotHas(v.last, rates, i);
  }

  // ---------------------------------------------------------------- the script's state

  class ScriptState {
    /** `last_rates`: the stored pair of every instrument seen. */
    var lastRates: map<string, RawQuote>
    var marketOpenSent: bool
    var marketCloseSent: bool

    constructor()
      ensures lastRates == map[] && !marketOpenSent && !marketCloseSent
    {
      lastRates := map[];
      marketOpenSent := false;
      marketCloseSent := false;
    }

    /** The state a tick changes besides the flags. */
    function View(disk: Disk, net: Network): ScriptView
      reads this, disk, net
    {
      ScriptView(lastRates, disk.history, disk.csv, disk.lastRates, disk.errorLog, net.sent)
    }

    /** `start_scheduler()`, lines 215-216: the snapshot is read back from data/last_rates.json. */
    method LoadSnapshot(disk: Disk)
      modifies this`lastRates, disk`errorLog
      ensures lastRates == LoadJson(disk.lastRates)
      ensures disk.errorLog == old(disk.errorLog) + ReadErrors(disk.lastRates, LAST_RATES_PATH)
    {
      lastRates := LoadJson(disk.lastRates);
      disk.LogErrors(ReadErrors(disk.lastRates, LAST_RATES_PATH));
    }

    /**
     * Lines 75-83: the notices; nothing ever clears the flags here except
     * `reset_market_flags`, so without it each notice goes out once per process.
     */
    method ScriptGate(hour: nat, disk: Disk, net: Network)
      modifies this`marketOpenSent, this`marketCloseSent, net`sent, disk`errorLog
      ensures marketOpenSent == (old(marketOpenSent) || hour == 10)
      ensures marketCloseSent == (old(marketCloseSent) || hour == 17)
      ensures net.sent == old(net.sent) + ScriptNotices(hour, old(marketOpenSent), old(marketCloseSent), net.telegramUp)
      ensures disk.errorLog == old(disk.errorLog) + ScriptGateErrors(hour, old(marketOpenSent), old(marketCloseSent), net.telegramUp)
    {
      if hour == 10 && !marketOpenSent {
        SafeSendMessage(net, disk, ConfiguredChat, Plain(SCRIPT_OPEN_TEXT));
        marketOpenSent := true;
      }
      if hour == 17 && !marketCloseSent {
        SafeSendMessage(net, disk, ConfiguredChat, Plain(SCRIPT_CLOSE_TEXT));
        marketCloseSent := true;
      }
    }

    /**
     * The loop of lines 98-132. `completed` is false when a history CSV write raised, which
     * leaves the loop (and the tick) at once.
     */
    method ScanRates(ts: string, rates: ODict<RawQuote>, threshold: real, disk: Disk)
      returns (messages: seq<AlertBlock>, completed: bool)
      modifies this`lastRates, disk`history, disk`csv, disk`errorLog
      ensures var obs := ScriptObs(old(lastRates), rates);
        (completed <==> disk.writable || NoneWorthy(obs, threshold)) &&
        (completed ==>
          lastRates == ScriptSnapshot(old(lastRates), rates) &&
          messages == ScriptBlocks(obs, threshold) &&
          HistoryFiles(disk.history, disk.csv, disk.errorLog) ==
            HistoryAll(HistoryFiles(old(disk.history), old(disk.csv), old(disk.errorLog)), obs, ts, threshold, disk.writable))
      ensures !completed ==>
        lastRates == ScriptSnapshot(old(lastRates), rates[..FirstWorthy(old(lastRates), rates, threshold, 0)]) &&
        HistoryFiles(disk.history, disk.csv, disk.errorLog) ==
          HistoryFiles(old(disk.history), old(disk.csv), old(disk.errorLog) + HistoryErrors(old(disk.history), false))
    {
      ghost var last0 := lastRates;
      ghost var h0 := HistoryFiles(disk.history, disk.csv, disk.errorLog);
      ghost var g0 := ScriptGather(last0, [], h0, true);
      ghost var clean := true;
      messages := [];
      var i := 0;
      while i < |rates|
        invariant 0 <= i <= |rates|
        invariant disk.csv == old(disk.csv) || disk.writable
        invariant !disk.writable ==> clean
        invariant ScriptGather(lastRates, messages, HistoryFiles(disk.history, disk.csv, disk.errorLog), clean) ==
          ScriptAll(g0, rates[..i], ts, threshold, disk.writable)
      {
        assert rates[..i + 1][..i] == rates[..i];
        ghost var next := ScriptNext(ScriptGather(lastRates, messages, HistoryFiles(disk.history, disk.csv, disk.errorLog), clean),
                                     rates[i], ts, threshold, disk.writable);
        var ok;
        messages, ok := ScanOne(rates[i], ts, threshold, messages, disk);
        clean := next.clean;
        if !ok {
          ScriptAllPrefix(last0, h0, rates, i, ts, threshold, disk.writable);
          HistoryAllQuiet(h0, ScriptObs(last0, rates[..i]), ts, threshold, disk.writable);
          FirstWorthyIs(last0, rates, threshold, i, 0);
          FirstWorthyFound(last0, rates, threshold);
          completed := false;
          return;
        }
        i := i + 1;
      }
      ScriptAllPrefix(last0, h0, rates, |rates|, ts, threshold, disk.writable);
      assert rates[..|rates|] == rates;
      completed := true;
    }

    /** One turn of the loop of lines 98-132, on the rate `e`; `ok` is false when the CSV write raised. */
    method ScanOne(e: Entry<RawQuote>, ts: string, threshold: real, messages: seq<AlertBlock>, disk: Disk)
      returns (messages': seq<AlertBlock>, ok: bool)
      modifies this`lastRates, disk`history, disk`csv, disk`errorLog
      ensures var g := ScriptNext(ScriptGather(old(lastRates), messages, HistoryFiles(old(disk.history), old(disk.csv), old(disk.errorLog)), true),
                                  e, ts, threshold, disk.writable);
        (ok <==> disk.writable || g.clean) &&
        lastRates == (if ok then g.last else old(lastRates)) &&
        messages' == g.messages && HistoryFiles(disk.history, disk.csv, disk.errorLog) == g.files
      ensures !disk.writable ==> disk.csv == old(disk.csv)
    {
      messages', ok := messages, true;
      var name, parsed := e.key, Parse(e.value);
      if parsed.Some? {
        var o := ScriptObservation(name, parsed.value, Lookup(lastRates, name));
        if Alerted(o, threshold) {
          messages' := messages + [ScriptBlockOf(o)];
        }
        ok := LogHistoryIfSignificant(o, ts, threshold, disk);
        if ok {
          lastRates := lastRates[name := e.value];
        }
      }
    }

    /**
     * Lines 89-139 inside the market window: the unused history load (which still logs an
     * unreadable file), the loop, the snapshot save and the alert without a header.
     */
    method MonitorScript(ts: string, rates: ODict<RawQuote>, threshold: real, disk: Disk, net: Network)
      returns (completed: bool)
      modifies this`lastRates, disk`history, disk`csv, disk`lastRates, disk`errorLog, net`sent
      ensures completed <==> disk.writable || NoneWorthy(ScriptObs(old(lastRates), rates), threshold)
      ensures completed ==> View(disk, net) == AfterScript(old(View(disk, net)), rates, ts, threshold, disk.writable, net.telegramUp)
      ensures !completed ==> View(disk, net) == ScriptAborted(old(View(disk, net)), rates, threshold)
    {
      disk.LogErrors(ReadErrors(disk.history, HISTORY_JSON_PATH));
      var messages;
      messages, completed := ScanRates(ts, rates, threshold, disk);
      if !completed {
        return;
      }
      var ok := disk.WriteLastRates(lastRates);
      disk.LogErrors(WriteErrors(ok, LAST_RATES_PATH));
      if messages != [] {
        SafeSendMessage(net, disk, ConfiguredChat, Alert(None, messages));
      }
    }

    /**
     * `check_dolar_changes()` at `hour`, with `fetched` what `get_all_dolar_rates()` read.
     * Returns false when the tick raised out of a history CSV write: then neither the snapshot
     * file nor the alert is written.
     */
    method CheckDolarChanges(hour: nat, ts: string, fetched: FetchResult, disk: Disk, net: Network)
      returns (completed: bool)
      modifies this, disk`history, disk`csv, disk`lastRates, disk`errorLog, net`sent
      ensures marketOpenSent == (old(marketOpenSent) || hour == 10)
      ensures marketCloseSent == (old(marketCloseSent) || hour == 17)
      ensures completed <==>
        !(10 <= hour < 17) || disk.writable || NoneWorthy(ScriptObs(old(lastRates), AsRaw(fetched.Rates())), SCRIPT_THRESHOLD)
      ensures View(disk, net) == AfterScriptCheck(old(View(disk, net)), hour, old(marketOpenSent), old(marketCloseSent), ts, fetched,
                                                  SCRIPT_THRESHOLD, disk.writable, net.telegramUp)
    {
      completed := ScriptCheckAt(hour, ts, fetched, SCRIPT_THRESHOLD, disk, net);
    }

    /** The body of `check_dolar_changes()`, for any threshold. */
    method ScriptCheckAt(hour: nat, ts: string, fetched: FetchResult, threshold: real, disk: Disk, net: Network)
      returns (completed: bool)
      modifies this, disk`history, disk`csv, disk`lastRates, disk`errorLog, net`sent
      ensures marketOpenSent == (old(marketOpenSent) || hour == 10)
      ensures marketCloseSent == (old(marketCloseSent) || hour == 17)
      ensures completed <==>
        !(10 <= hour < 17) || disk.writable || NoneWorthy(ScriptObs(old(lastRates), AsRaw(fetched.Rates())), threshold)
      ensures View(disk, net) == AfterScriptCheck(old(View(disk, net)), hour, old(marketOpenSent), old(marketCloseSent), ts, fetched,
                                                  threshold, disk.writable, net.telegramUp)
    {
      ghost var v0 := View(disk, net);
      ghost var open0, close0 := marketOpenSent, marketCloseSent;
      ScriptGate(hour, disk, net);
      assert View(disk, net) == AfterScriptGate(v0, hour, open0, close0, net.telegramUp);
      completed := ScriptInWindow(hour, ts, fetched, threshold, disk, net);
    }

    /** Lines 86-139: outside 10 <= hour < 17 the tick returns; inside it scans the fetched rates. */
    method ScriptInWindow(hour: nat, ts: string, fetched: FetchResult, threshold: real, disk: Disk, net: Network)
      returns (completed: bool)
      modifies this`lastRates, disk`history, disk`csv, disk`lastRates, disk`errorLog, net`sent
      ensures completed <==>
        !(10 <= hour < 17) || disk.writable || NoneWorthy(ScriptObs(old(lastRates), AsRaw(fetched.Rates())), threshold)
      ensures completed ==>
        View(disk, net) == if 10 <= hour < 17 then AfterScript(old(View(disk, net)), AsRaw(fetched.Rates()), ts, threshold,
                                                               disk.writable, net.telegramUp)
                           else old(View(disk, net))
      ensures !completed ==> View(disk, net) == ScriptAborted(old(View(disk, net)), AsRaw(fetched.Rates()), threshold)
    {
      if !(10 <= hour < 17) {
        return true;
      }
      completed := MonitorScript(ts, AsRaw(fetched.Rates()), threshold, disk, net);
    }

    /** `send_daily_summary()`: only a tick. */
    method SendDailySummary(hour: nat, ts: string, fetched: FetchResult, disk: Disk, net: Network)
      returns (completed: bool)
      modifies this, disk`history, disk`csv, disk`lastRates, disk`errorLog, net`sent
      ensures marketOpenSent == (old(marketOpenSent) || hour == 10)
      ensures marketCloseSent == (old(marketCloseSent) || hour == 17)
      ensures completed <==>
        !(10 <= hour < 17) || disk.writable || NoneWorthy(ScriptObs(old(lastRates), AsRaw(fetched.Rates())), SCRIPT_THRESHOLD)
      ensures View(disk, net) == AfterScriptCheck(old(View(disk, net)), hour, old(marketOpenSent), old(marketCloseSent), ts, fetched,
                                                  SCRIPT_THRESHOLD, disk.writable, net.telegramUp)
    {
      completed := CheckDolarChanges(hour, ts, fetched, disk, net);
    }

    /** `reset_market_flags()`. */
    method ResetMarketFlags()
      modifies this`marketOpenSent, this`marketCloseSent
      ensures !marketOpenSent && !marketCloseSent
    {
      marketOpenSent := false;
      marketCloseSent := false;
    }
  }

  /** The notices a tick at `hour` sends, given the flags before it. */
  function ScriptNotices(hour: nat, openSent: bool, closeSent: bool, up: bool): (msgs: seq<Outgoing>)
    ensures |msgs| <= 1
    ensures up && hour == 10 && !openSent ==> msgs == [Outgoing(ConfiguredChat, Plain(SCRIPT_OPEN_TEXT))]
    ensures up && hour == 17 && !closeSent ==> msgs == [Outgoing(ConfiguredChat, Plain(SCRIPT_CLOSE_TEXT))]
    ensures msgs != [] <==> up && ((hour == 10 && !openSent) || (hour == 17 && !closeSent))
  {
    if !up then []
    else (if hour == 10 && !openSent then [Outgoing(ConfiguredChat, Plain(SCRIPT_OPEN_TEXT))] else []) +
         (if hour == 17 && !closeSent then [Outgoing(ConfiguredChat, Plain(SCRIPT_CLOSE_TEXT))] else [])
  }

  /** Once the open notice went out, later ticks never repeat it until the flags are reset. */
  lemma OpenNoticeNotRepeated(hour: nat, closeSent: bool, up: bool)
    ensures Outgoing(ConfiguredChat, Plain(SCRIPT_OPEN_TEXT)) !in ScriptNotices(hour, true, closeSent, up)
  {
  }

  /**
   * `log_history_if_significant(...)`, lines 152-188: below the threshold nothing happens;
   * otherwise the record is appended to the JSON history (read and write failures are logged)
   * and a row to the CSV, whose failed write raises (`completed` false).
   */
  method LogHistoryIfSignificant(o: ScriptObservation, ts: string, threshold: real, disk: Disk) returns (completed: bool)
    modifies disk`history, disk`csv, disk`errorLog
    ensures completed == (disk.writable || !HistoryWorthy(o, threshold))
    ensures HistoryFiles(disk.history, disk.csv, disk.errorLog) ==
      HistoryStep(HistoryFiles(old(disk.history), old(disk.csv), old(disk.errorLog)), o, ts, threshold, disk.writable)
  {
    var dc := HistoryDiff(o.quote.compra, o.last.compra);
    var dv := HistoryDiff(o.quote.venta, o.last.venta);
    if Abs(dc) < threshold && Abs(dv) < threshold {
      return true;
    }
    AppendToJsonHistory(disk, o.name, ScriptRecord(o, ts));
    completed := disk.AppendCsv(HISTORY_COLUMNS, [ScriptRow(o, ts)]);
  }

  // ---------------------------------------------------------------- log_rates_auto

  /** Lines 198-203: the selling price of each tracked type, 0 when the fetch did not return it. */
  function AutoRow(ts: string, rates: ODict<RateData>): (row: seq<Cell>)
    ensures |row| == |AUTO_COLUMNS|
    ensures row[0] == Text(ts)
    ensures forall i :: 0 <= i < |DOLAR_TYPES| ==>
      row[i + 1] == Num(match Get(rates, DOLAR_TYPES[i]) case Some(r) => r.venta case None => 0.0)
  {
    [Text(ts)] + seq(|DOLAR_TYPES|, i requires 0 <= i < |DOLAR_TYPES| =>
      Num(match Get(rates, DOLAR_TYPES[i]) case Some(r) => r.venta case None => 0.0))
  }

  /**
   * `log_rates_auto()`: one row of selling prices appended to the shared CSV (header only into a
   * new file), and a line printed either way.
   */
  method LogRatesAuto(ts: string, fetched: FetchResult, disk: Disk)
    modifies disk`csv, disk`console
    ensures disk.csv == CsvAppended(old(disk.csv), AUTO_COLUMNS, [AutoRow(ts, fetched.Rates())], disk.writable)
    ensures disk.console == old(disk.console) + [if disk.writable then AUTO_SAVED + ts else AUTO_FAILED]
  {
    var row := AutoRow(ts, fetched.Rates());
    var ok := disk.AppendCsv(AUTO_COLUMNS, [row]);
    if ok {
      disk.console := disk.console + [AUTO_SAVED + ts];
    } else {
      disk.console := disk.console + [AUTO_FAILED];
    }
  }

  /**
   * Both writers share data/dolar_history.csv with different columns: a file started by
   * `log_rates_auto` carries its 8-column header, and the history rows that follow have 6 cells.
   */
  lemma SharedCsvMixesSchemas(ts: string, rates: ODict<RateData>, o: ScriptObservation)
    ensures var f1 := CsvAppended(CsvFile(false, []), AUTO_COLUMNS, [AutoRow(ts, rates)], true);
      var f2 := CsvAppended(f1, HISTORY_COLUMNS, [ScriptRow(o, ts)], true);
      f2.lines == [Header(AUTO_COLUMNS), Row(AutoRow(ts, rates)), Row(ScriptRow(o, ts))] &&
      |AUTO_COLUMNS| == 8 && |ScriptRow(o, ts)| == 6
  {
    var f1 := CsvAppended(CsvFile(false, []), AUTO_COLUMNS, [AutoRow(ts, rates)], true);
    assert f1.lines == [Header(AUTO_COLUMNS), Row(AutoRow(ts, rates))];
  }
}
